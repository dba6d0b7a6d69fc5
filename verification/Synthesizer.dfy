/** The Synthesizer node (synthesis/synthesizer.py): per section, evidence read, budget
    check with rerank, at most two model calls, grounding, and the resulting extract. */
module Synthesizer {
  import opened Prelude
  import opened Roles
  import opened Errors
  import opened Json
  import opened Schemas
  import opened Budget
  import opened Llm
  import opened StructuredCall
  import opened EvidenceStore
  import opened Packing
  import opened Rerank
  import opened Grounding

  /** Why the second call is made. */
  datatype RepairCause = Malformed | Ungrounded(violation: Violation)

  /** The prompt template, the structured-output format, model validation and the
      wording of the repair request. */
  datatype Config = Config(template: PlannerSection -> string, format: Format,
                           parse: Json -> Option<SynthesizerOutput>, repairText: RepairCause -> string)

  function EmptyOutput(section: PlannerSection): SynthesizerOutput {
    SynthesizerOutput(section.sectionId, [], [], [], ComparisonMatrix(DEFAULT_DIMENSIONS, []), [], [],
                      seq(|section.mustFindEvidence|, i requires 0 <= i < |section.mustFindEvidence| =>
                        CoverageGap(section.mustFindEvidence[i], "missing_evidence",
                                    "Section has 0 EvidenceItems from Researcher-Deep.")))
  }

  function ListText(ids: seq<string>): string {
    if ids == [] then "" else if |ids| == 1 then "'" + ids[0] + "'"
    else ListText(ids[..|ids| - 1]) + ", '" + ids[|ids| - 1] + "'"
  }

  /** The accepted output, with one more gap when papers were dropped. */
  function WithTruncationGap(out: SynthesizerOutput, dropped: seq<string>): SynthesizerOutput {
    if dropped == [] then out
    else out.(coverageGaps := out.coverageGaps
              + [CoverageGap("(budget truncation)", "budget_truncation",
                             "Dropped papers due to input budget: [" + ListText(dropped) + "]")])
  }

  /** The dict from evidence id to paper; a later item would win over an earlier one. */
  function PaperOfId(items: seq<EvidenceItem>): (m: map<string, string>)
    ensures m.Keys == set x | x in items :: x.evidenceId
    ensures forall e :: e in m ==> exists x :: x in items && x.evidenceId == e && x.paperId == m[e]
  {
    if items == [] then map[]
    else
      var last := items[|items| - 1];
      assert items == items[..|items| - 1] + [last];
      PaperOfId(items[..|items| - 1])[last.evidenceId := last.paperId]
  }

  function InputsOf(items: seq<EvidenceItem>, sectionId: string): Inputs {
    Inputs(set x | x in items :: x.paperId, set x | x in items :: x.evidenceId, PaperOfId(items), sectionId)
  }

  /** The empty output passes the grounding check of a section without evidence, and has
      one gap per item that had to be found, in order, and nothing else. */
  lemma EmptyOutputIsGrounded(section: PlannerSection)
    ensures var out, wanted := EmptyOutput(section), section.mustFindEvidence;
            && Grounded(out, Inputs({}, {}, map[], section.sectionId))
            && out.papersCited == [] && out.claims == [] && out.paperFacts == [] && out.matrix.rows == []
            && out.matrix.dimensions == ["method", "dataset", "metric", "result"]
            && out.categories == [] && out.synthesis == [] && |out.coverageGaps| == |wanted|
            && forall i :: 0 <= i < |wanted| ==>
                 out.coverageGaps[i].item == wanted[i] && out.coverageGaps[i].reason == "missing_evidence"
  {
  }

  lemma {:induction false} ListTextNames(ids: seq<string>, i: nat)
    requires i < |ids|
    ensures Contains(ListText(ids), "'" + ids[i] + "'")
  {
    hide ListText, Contains;
    var n := |ids| - 1;
    var head := ListTextEnds(ids);
    var quoted := "'" + ids[n] + "'";
    Unpadded(head, quoted);
    if i == n {
      InTheMiddle(head, quoted, "");
    } else {
      ListTextNames(ids[..n], i);
      assert ids[..n][i] == ids[i];
      assert head == ListText(ids[..n]) + ", ";
      ContainsMore("", ListText(ids[..n]), ", " + quoted, "'" + ids[i] + "'");
      Joined(ListText(ids[..n]), ", ", quoted);
    }
  }

  lemma ListTextEnds(ids: seq<string>) returns (head: string)
    requires ids != []
    ensures var n := |ids| - 1;
            && ListText(ids) == head + ("'" + ids[n] + "'")
            && head == if n == 0 then "" else ListText(ids[..n]) + ", "
  {
    var n := |ids| - 1;
    head := if n == 0 then "" else ListText(ids[..n]) + ", ";
  }

  lemma Unpadded(a: string, b: string)
    ensures a + b + "" == a + b
  {
  }

  lemma Joined(a: string, b: string, c: string)
    ensures "" + a + (b + c) == a + b + c
  {
  }

  lemma ContainsMore(a: string, b: string, c: string, pattern: string)
    requires Contains(b, pattern)
    ensures Contains(a + b + c, pattern)
  {
    var i :| 0 <= i <= |b| && pattern <= b[i..];
    assert (a + b + c)[|a| + i..] == b[i..] + c;
  }

  /** A truncation leaves the output and its gaps alone and adds one gap at the end, with
      its own reason, naming every paper dropped; without one nothing changes. */
  lemma TruncationAddsOneGap(out: SynthesizerOutput, dropped: seq<string>)
    ensures var r := WithTruncationGap(out, dropped);
            && (dropped == [] ==> r == out)
            && (dropped != [] ==>
                  var n := |out.coverageGaps|;
                  && r == out.(coverageGaps := r.coverageGaps) && |r.coverageGaps| == n + 1
                  && r.coverageGaps[..n] == out.coverageGaps && r.coverageGaps[n].reason == "budget_truncation"
                  && forall i :: 0 <= i < |dropped| ==> Contains(r.coverageGaps[n].description, "'" + dropped[i] + "'"))
  {
    hide ListText;
    var intro := "Dropped papers due to input budget: [";
    forall i | 0 <= i < |dropped| ensures Contains(intro + ListText(dropped) + "]", "'" + dropped[i] + "'") {
      ListTextNames(dropped, i);
      ContainsMore(intro, ListText(dropped), "]", "'" + dropped[i] + "'");
    }
  }

  /** The output is checked against exactly the papers and ids of the items; under the
      primary key an id belongs to the paper of its item. */
  lemma InputsAreTheItems(items: seq<EvidenceItem>, sectionId: string)
    requires forall x, y :: x in items && y in items && x.evidenceId == y.evidenceId ==> x == y
    ensures var inp := InputsOf(items, sectionId);
            && inp.sectionId == sectionId
            && (forall p :: p in inp.paperIds <==> exists x :: x in items && x.paperId == p)
            && (forall e :: e in inp.evidenceIds <==> exists x :: x in items && x.evidenceId == e)
            && (forall x :: x in items ==> x.evidenceId in inp.paperOf && inp.paperOf[x.evidenceId] == x.paperId)
            && inp.paperOf.Keys == inp.evidenceIds
  {
    hide PaperOfId;
  }

  // ---- The two-attempt repair loop ----------------------------------------

  /** What one reply is worth: an output to keep, a reason to ask again, or an exception
      that ends the section. A model validation error asks again wherever it was raised. */
  datatype Worth = Good(output: SynthesizerOutput) | Bad(cause: RepairCause) | Thrown(exc: Exc)

  ghost function Assess(cfg: Config, inp: Inputs, r: Reply): Worth {
    match r
    case Failed(exc) => if exc.kind.PydanticInvalid? then Bad(Malformed) else Thrown(exc)
    case Answered(m) =>
      match Judge(cfg.format, m)
      case Err(_) => Bad(Malformed)
      case Ok(v) =>
        match cfg.parse(v)
        case None => Bad(Malformed)
        case Some(out) =>
          match FirstViolation(out, inp)
          case None => Good(out)
          case Some(violation) => Bad(Ungrounded(violation))
  }

  datatype Attempt =
    | Accepted(output: SynthesizerOutput)
    | Exhausted
    | Classified(category: ErrorCategory)
    | Raised(exc: Exc)

  /** How replies start, start+1, ... decide: the first acceptable answer is taken, an
      unacceptable one is followed by one repair call, an exception ends the section. */
  ghost predicate Decides(cfg: Config, inp: Inputs, script: nat -> Reply, start: nat, n: nat, r: Attempt) {
    && 1 <= n <= 2
    && (n == 2 ==> Assess(cfg, inp, script(start)).Bad?)
    && match Assess(cfg, inp, script(start + n - 1))
       case Good(out) => r == Accepted(out)
       case Bad(_) => n == 2 && r == Exhausted
       case Thrown(exc) => r == if exc.category.Some? then Classified(exc.category.value) else Raised(exc)
  }

  /** The prompts sent: the user message, and on repair the request appended to it. */
  ghost predicate Asks(cfg: Config, inp: Inputs, script: nat -> Reply, prompts: seq<seq<Message>>, start: nat,
                       n: nat, user: string) {
    && 1 <= n <= 2 && start + n <= |prompts|
    && prompts[start] == FirstPrompt(cfg.format, [Human(user)])
    && (n == 2 ==>
          && Assess(cfg, inp, script(start)).Bad?
          && prompts[start + 1] == FirstPrompt(cfg.format,
               [Human(user), Human(cfg.repairText(Assess(cfg, inp, script(start)).cause))]))
  }

  method AskGrounded(cfg: Config, llm: LlmClient, inp: Inputs, user: string) returns (r: Attempt)
    modifies llm
    ensures var start, n := |old(llm.prompts)|, |llm.prompts| - |old(llm.prompts)|;
            && 1 <= n <= 2 && old(llm.prompts) <= llm.prompts
            && Decides(cfg, inp, llm.script, start, n, r)
            && Asks(cfg, inp, llm.script, llm.prompts, start, n, user)
  {
    hide FirstPrompt, Judge, FirstViolation, Grounded;
    ghost var start := |llm.prompts|;
    var messages := [Human(user)];
    for attempt := 1 to 3
      invariant |llm.prompts| == start + attempt - 1 && old(llm.prompts) <= llm.prompts
      invariant attempt == 1 ==> messages == [Human(user)]
      invariant attempt == 2 ==>
        && Assess(cfg, inp, llm.script(start)).Bad?
        && messages == [Human(user), Human(cfg.repairText(Assess(cfg, inp, llm.script(start)).cause))]
        && llm.prompts[start] == FirstPrompt(cfg.format, [Human(user)])
      invariant attempt <= 2
    {
      // max_retries=0: exactly one invocation
      var reply := Invoke(llm, messages, cfg.format, 0);
      assert llm.prompts[start + attempt - 1] == FirstPrompt(cfg.format, messages);
      var cause := Malformed;
      match reply {
        case Propagated(exc) =>
          if !exc.kind.PydanticInvalid? {
            match exc.category {
              case Some(c) => return Classified(c);
              case None => return Raised(exc);
            }
          }
        case NoValidOutput(_) =>
        case Parsed(v) =>
          var candidate := cfg.parse(v);
          if candidate.Some? {
            var violation := ValidateGrounding(candidate.value, inp);
            if violation.None? { return Accepted(candidate.value); }
            cause := Ungrounded(violation.value);
          }
      }
      assert Assess(cfg, inp, llm.script(start + attempt - 1)) == Bad(cause);
      if attempt == 2 { return Exhausted; }
      messages := messages + [Human(cfg.repairText(cause))];
    }
    assert false;
  }

  // ---- One section --------------------------------------------------------

  /** The new extract, if the section gets one, and the error recorded on the run; or the
      unclassified exception that ends the node. */
  datatype SectionResult =
    | Done(extract: Option<SynthesizerOutput>, category: Option<ErrorCategory>)
    | Aborted(exc: Exc)

  function ResultOf(a: Attempt, dropped: seq<string>): SectionResult {
    match a
    case Accepted(out) => Done(Some(WithTruncationGap(out, dropped)), None)
    case Exhausted => Done(None, Some(SchemaInvalid))
    case Classified(c) => Done(None, Some(c))
    case Raised(exc) => Aborted(exc)
  }

  const MAX_TOKENS := 96000

  /** Nothing to say: no model call, and the structured empty extract. */
  ghost predicate EmptyCase(section: PlannerSection, r: SectionResult, n: nat, category: Option<ErrorCategory>) {
    n == 0 && r == Done(Some(EmptyOutput(section)), category)
  }

  ghost predicate Overflows(cfg: Config, section: PlannerSection, items: seq<EvidenceItem>) {
    PackedTokens(items, EstimateTokens(cfg.template(section))) > MAX_TOKENS
  }

  /** The items that reach the prompt: all of them, or what a rerank keeps. */
  ghost function Surviving(cfg: Config, section: PlannerSection, items: seq<EvidenceItem>): seq<EvidenceItem> {
    if Overflows(cfg, section, items)
    then Selection(items, EstimateTokens(cfg.template(section)), MAX_TOKENS)
    else items
  }

  ghost function DroppedPapers(cfg: Config, section: PlannerSection, items: seq<EvidenceItem>): seq<string> {
    if Overflows(cfg, section, items) then Dropped(items, EstimateTokens(cfg.template(section)), MAX_TOKENS) else []
  }

  /** The section's result follows from its rows, in the order they were read, and from
      the replies start .. start+n-1. */
  ghost predicate JustifiedFor(cfg: Config, section: PlannerSection, items: seq<EvidenceItem>,
                               script: nat -> Reply, start: nat, n: nat, r: SectionResult)
  {
    if items == [] then EmptyCase(section, r, n, None)
    else
      var used, dropped := Surviving(cfg, section, items), DroppedPapers(cfg, section, items);
      if used == [] then EmptyCase(section, r, n, Some(ContextOverflow))
      else
        && (dropped != [] <==> Overflows(cfg, section, items))
        && exists a :: Decides(cfg, InputsOf(used, section.sectionId), script, start, n, a) && r == ResultOf(a, dropped)
  }

  method SynthesizeSection(cfg: Config, section: PlannerSection, runId: string, store: Store, budget: BudgetManager,
                           llm: LlmClient)
    returns (r: SectionResult, ghost read: seq<EvidenceItem>)
    modifies budget, llm
    ensures old(llm.prompts) <= llm.prompts && |llm.prompts| <= |old(llm.prompts)| + 2
    ensures multiset(read) == multiset(Matching(store.rows, runId, section.sectionId))
    ensures var start, n := |old(llm.prompts)|, |llm.prompts| - |old(llm.prompts)|;
            && JustifiedFor(cfg, section, read, llm.script, start, n, r)
            && AsksAbout(cfg, section, read, llm.script, llm.prompts, start, n)
    ensures var before := old(budget.UsageOf(AgentRole.Synthesizer));
            budget.UsageOf(AgentRole.Synthesizer)
            == before.(overflows := before.overflows + if read != [] && Overflows(cfg, section, read) then 1 else 0)
  {
    hide PackedTokens, Decides, Asks, Greedy, Ranked, Gather, EstimateTokens, BuildUserMessage, InputsOf, Matching;
    ghost var start := |llm.prompts|;
    var items := store.ListBySection(runId, section.sectionId);
    read := items;
    if items == [] {
      r := Done(Some(EmptyOutput(section)), None);
      return;
    }
    var base := EstimateTokens(cfg.template(section));
    var fullTokens := PackedTotalTokens(items, base);
    var dropped: seq<string> := [];
    var user: string;
    var spec := budget.Check(AgentRole.Synthesizer, fullTokens);
    if spec.Some? {
      user := BuildUserMessage(cfg.template(section), items);
    } else {
      DropsExactlyOnOverflow(items, base, MAX_TOKENS);
      SelectionFits(items, base, MAX_TOKENS);
      items, dropped := TopKRerank(items, base, MAX_TOKENS);
      if items == [] {
        r := Done(Some(EmptyOutput(section)), Some(ContextOverflow));
        return;
      }
      user := BuildUserMessage(cfg.template(section), items);
      var packed := PackedTotalTokens(items, base);
      // the recheck the original makes; the selection fits, so it never fails
      var recheck := budget.Check(AgentRole.Synthesizer, packed);
      assert recheck.Some?;
    }
    assert items == Surviving(cfg, section, read) && dropped == DroppedPapers(cfg, section, read);
    var a := AskGrounded(cfg, llm, InputsOf(items, section.sectionId), user);
    r := ResultOf(a, dropped);
    assert Decides(cfg, InputsOf(items, section.sectionId), llm.script, start, |llm.prompts| - start, a);
  }

  // ---- The node -----------------------------------------------------------

  /** One section's entry in the node's history: the rows as they were read, the number
      of invocations made, and the result. */
  datatype Entry = Entry(items: seq<EvidenceItem>, count: nat, result: SectionResult)

  function Store1(extracts: map<string, SynthesizerOutput>, sectionId: string, r: SectionResult)
    : map<string, SynthesizerOutput>
  {
    if r.Done? && r.extract.Some? then extracts[sectionId := r.extract.value] else extracts
  }

  /** The extracts after the sections so far. */
  function StoreAll(extracts: map<string, SynthesizerOutput>, outline: seq<PlannerSection>,
                    log: seq<Entry>): map<string, SynthesizerOutput>
    requires |log| <= |outline|
  {
    if log == [] then extracts
    else
      var n := |log| - 1;
      Store1(StoreAll(extracts, outline, log[..n]), outline[n].sectionId, log[n].result)
  }

  /** The category of the last section that recorded one. */
  function LastCategory(log: seq<Entry>): Option<ErrorCategory> {
    if log == [] then None
    else
      var r := log[|log| - 1].result;
      if r.Done? && r.category.Some? then r.category else LastCategory(log[..|log| - 1])
  }

  /** What the node starts from: its first invocation is number `first`. */
  datatype Task = Task(cfg: Config, rows: seq<EvidenceItem>, runId: string, outline: seq<PlannerSection>,
                       script: nat -> Reply, first: nat)

  function InvokedBy(first: nat, log: seq<Entry>): nat {
    if log == [] then first else InvokedBy(first, log[..|log| - 1]) + log[|log| - 1].count
  }

  /** The entry's rows are the section's, its result follows from them and from the
      replies from number `start` on, and its prompts carry the surviving items. */
  ghost predicate Justified(t: Task, section: PlannerSection, prompts: seq<seq<Message>>, start: nat, e: Entry) {
    && multiset(e.items) == multiset(Matching(t.rows, t.runId, section.sectionId))
    && JustifiedFor(t.cfg, section, e.items, t.script, start, e.count, e.result)
    && AsksAbout(t.cfg, section, e.items, t.script, prompts, start, e.count)
  }

  ghost predicate AsksAbout(cfg: Config, section: PlannerSection, items: seq<EvidenceItem>, script: nat -> Reply,
                            prompts: seq<seq<Message>>, start: nat, n: nat)
  {
    n > 0 ==>
      var used := Surviving(cfg, section, items);
      Asks(cfg, InputsOf(used, section.sectionId), script, prompts, start, n,
           BuildUserMessage(cfg.template(section), used))
  }

  /** The sections took the invocations from `first` on, one after the other. */
  ghost predicate LogJustified(t: Task, prompts: seq<seq<Message>>, log: seq<Entry>) {
    && |log| <= |t.outline| && InvokedBy(t.first, log) <= |prompts|
    && forall i :: 0 <= i < |log| ==> Justified(t, t.outline[i], prompts, InvokedBy(t.first, log[..i]), log[i])
  }

  lemma JustifiedStays(t: Task, section: PlannerSection, prompts: seq<seq<Message>>, more: seq<seq<Message>>,
                       start: nat, e: Entry)
    requires Justified(t, section, prompts, start, e) && prompts <= more
    ensures Justified(t, section, more, start, e)
  {
    hide JustifiedFor, Matching, Surviving, InputsOf, Assess, BuildUserMessage, FirstPrompt;
  }

  lemma LogStays(t: Task, prompts: seq<seq<Message>>, more: seq<seq<Message>>, log: seq<Entry>)
    requires LogJustified(t, prompts, log) && prompts <= more
    ensures LogJustified(t, more, log)
  {
    hide Justified, InvokedBy;
    forall i | 0 <= i < |log| ensures Justified(t, t.outline[i], more, InvokedBy(t.first, log[..i]), log[i]) {
      JustifiedStays(t, t.outline[i], prompts, more, InvokedBy(t.first, log[..i]), log[i]);
    }
  }

  lemma InvokedGrows(first: nat, log: seq<Entry>, e: Entry)
    ensures InvokedBy(first, log + [e]) == InvokedBy(first, log) + e.count
  {
    assert (log + [e])[..|log|] == log;
  }

  lemma LogGrows(t: Task, prompts: seq<seq<Message>>, more: seq<seq<Message>>, log: seq<Entry>, e: Entry)
    requires LogJustified(t, prompts, log) && |log| < |t.outline| && prompts <= more
    requires InvokedBy(t.first, log) + e.count <= |more|
    requires Justified(t, t.outline[|log|], more, InvokedBy(t.first, log), e)
    ensures LogJustified(t, more, log + [e]) && InvokedBy(t.first, log + [e]) == InvokedBy(t.first, log) + e.count
  {
    hide Justified, InvokedBy;
    var all := log + [e];
    assert all[..|log|] == log;
    InvokedGrows(t.first, log, e);
    forall i | 0 <= i < |all| ensures Justified(t, t.outline[i], more, InvokedBy(t.first, all[..i]), all[i]) {
      if i < |log| {
        assert all[..i] == log[..i];
        JustifiedStays(t, t.outline[i], prompts, more, InvokedBy(t.first, log[..i]), log[i]);
      }
    }
  }

  lemma FoldsGrow(extracts: map<string, SynthesizerOutput>, outline: seq<PlannerSection>, log: seq<Entry>, e: Entry)
    requires |log| < |outline|
    ensures StoreAll(extracts, outline, log + [e])
         == Store1(StoreAll(extracts, outline, log), outline[|log|].sectionId, e.result)
    ensures LastCategory(log + [e])
         == if e.result.Done? && e.result.category.Some? then e.result.category else LastCategory(log)
  {
    assert (log + [e])[..|log|] == log;
  }

  /** A section ends the node only by an exception of the model that carries no category. */
  lemma OnlyTheModelAborts(t: Task, section: PlannerSection, prompts: seq<seq<Message>>, start: nat, e: Entry)
    requires Justified(t, section, prompts, start, e) && e.result.Aborted?
    ensures e.result.exc.category.None? && 1 <= e.count <= 2 && t.script(start + e.count - 1) == Failed(e.result.exc)
  {
    hide Matching, Surviving, DroppedPapers, Overflows, InputsOf, Judge, FirstViolation, AsksAbout;
  }

  datatype NodeResult =
    | Finished(extracts: map<string, SynthesizerOutput>, category: Option<ErrorCategory>)
    | NodeRaised(exc: Exc)

  method Run(cfg: Config, outline: seq<PlannerSection>, extracts: map<string, SynthesizerOutput>, runId: string,
             store: Store, budget: BudgetManager, llm: LlmClient)
    returns (r: NodeResult, ghost log: seq<Entry>)
    modifies budget, llm
    ensures old(llm.prompts) <= llm.prompts && |llm.prompts| <= |old(llm.prompts)| + 2 * |outline|
    ensures var t := Task(cfg, store.rows, runId, outline, llm.script, |old(llm.prompts)|);
            LogJustified(t, llm.prompts, log) && InvokedBy(t.first, log) == |llm.prompts|
    ensures match r
            case Finished(new_, category) =>
              && |log| == |outline| && (forall i :: 0 <= i < |log| ==> log[i].result.Done?)
              && new_ == StoreAll(extracts, outline, log) && category == LastCategory(log)
            case NodeRaised(exc) =>
              && log != [] && log[|log| - 1].result == Aborted(exc)
              && forall i :: 0 <= i < |log| - 1 ==> log[i].result.Done?
  {
    hide JustifiedFor, Asks, AsksAbout, Matching, Surviving, InputsOf, LogJustified, StoreAll, LastCategory;
    ghost var t := Task(cfg, store.rows, runId, outline, llm.script, |llm.prompts|);
    var newExtracts, lastCategory := extracts, None;
    log := [];
    NothingYet(t, llm.prompts, extracts);
    for i := 0 to |outline|
      invariant |log| == i && LogJustified(t, llm.prompts, log) && InvokedBy(t.first, log) == |llm.prompts|
      invariant forall k :: 0 <= k < |log| ==> log[k].result.Done?
      invariant newExtracts == StoreAll(extracts, outline, log) && lastCategory == LastCategory(log)
      invariant old(llm.prompts) <= llm.prompts && |llm.prompts| <= |old(llm.prompts)| + 2 * i
    {
      ghost var prompts := llm.prompts;
      var s, read := SynthesizeSection(cfg, outline[i], runId, store, budget, llm);
      ghost var e := Entry(read, |llm.prompts| - |prompts|, s);
      LogGrows(t, prompts, llm.prompts, log, e);
      FoldsGrow(extracts, outline, log, e);
      log := log + [e];
      match s {
        case Aborted(exc) => r := NodeRaised(exc); return;
        case Done(extract, category) =>
          if extract.Some? { newExtracts := newExtracts[outline[i].sectionId := extract.value]; }
          if category.Some? { lastCategory := category; }
      }
    }
    r := Finished(newExtracts, lastCategory);
  }

  lemma NothingYet(t: Task, prompts: seq<seq<Message>>, extracts: map<string, SynthesizerOutput>)
    requires t.first == |prompts|
    ensures LogJustified(t, prompts, []) && InvokedBy(t.first, []) == |prompts|
    ensures StoreAll(extracts, t.outline, []) == extracts && LastCategory([]) == None
  {
  }

  // ---- What the node guarantees -------------------------------------------

  ghost predicate DistinctSections(outline: seq<PlannerSection>) {
    forall i, j :: 0 <= i < j < |outline| ==> outline[i].sectionId != outline[j].sectionId
  }

  lemma {:induction false} StoreAllElsewhere(extracts: map<string, SynthesizerOutput>, outline: seq<PlannerSection>,
                                             log: seq<Entry>, id: string)
    requires |log| <= |outline| && forall i :: 0 <= i < |log| ==> outline[i].sectionId != id
    ensures id in StoreAll(extracts, outline, log) <==> id in extracts
    ensures id in extracts ==> StoreAll(extracts, outline, log)[id] == extracts[id]
  {
    if log != [] { StoreAllElsewhere(extracts, outline, log[..|log| - 1], id); }
  }

  /** With distinct section ids, a section's final extract is the one its own turn made,
      or the incoming one if its turn made none. */
  lemma {:induction false} EachSectionKeepsItsOwn(extracts: map<string, SynthesizerOutput>,
                                                  outline: seq<PlannerSection>, log: seq<Entry>, i: nat)
    requires |log| <= |outline| && i < |log| && DistinctSections(outline)
    ensures var final, id := StoreAll(extracts, outline, log), outline[i].sectionId;
            if log[i].result.Done? && log[i].result.extract.Some?
            then id in final && final[id] == log[i].result.extract.value
            else (id in final <==> id in extracts) && (id in extracts ==> final[id] == extracts[id])
  {
    var n := |log| - 1;
    if i == n {
      StoreAllElsewhere(extracts, outline, log[..n], outline[i].sectionId);
    } else {
      EachSectionKeepsItsOwn(extracts, outline, log[..n], i);
    }
  }

  /** The items a section's accepted output is checked against. */
  ghost predicate GroundedIn(out: SynthesizerOutput, used: seq<EvidenceItem>, sectionId: string, gap: seq<string>) {
    exists candidate :: Grounded(candidate, InputsOf(used, sectionId)) && out == WithTruncationGap(candidate, gap)
  }

  /** Grounded in the surviving items, with a truncation gap exactly on overflow. */
  ghost predicate GroundedInSurvivors(cfg: Config, section: PlannerSection, items: seq<EvidenceItem>,
                                      out: SynthesizerOutput) {
    var dropped := DroppedPapers(cfg, section, items);
    && (dropped != [] <==> Overflows(cfg, section, items))
    && GroundedIn(out, Surviving(cfg, section, items), section.sectionId, dropped)
  }

  /** Why a section got no output: two unacceptable answers, or an exception with the
      category recorded. */
  ghost predicate FailedFor(cfg: Config, inp: Inputs, script: nat -> Reply, start: nat, n: nat,
                            category: Option<ErrorCategory>) {
    || (category == Some(SchemaInvalid) && n == 2
        && Assess(cfg, inp, script(start)).Bad? && Assess(cfg, inp, script(start + 1)).Bad?)
    || (category.Some? && n > 0 && script(start + n - 1).Failed? && script(start + n - 1).exc.category == category)
  }

  /** With no rows, a section ends with the structured empty extract; when not even one
      paper fits, with the same and an overflow recorded; and otherwise with an output
      grounded in the surviving items - all of them unless the section overflowed, in which
      case a truncation gap names the papers dropped - or as it was, with an error recorded. */
  lemma SectionExtractIsEmptyGroundedOrUnchanged(t: Task, prompts: seq<seq<Message>>, log: seq<Entry>,
                                                 extracts: map<string, SynthesizerOutput>, i: nat)
    requires LogJustified(t, prompts, log) && |log| == |t.outline| && i < |log|
    requires DistinctSections(t.outline) && log[i].result.Done?
    ensures var final, s, items := StoreAll(extracts, t.outline, log), t.outline[i], log[i].items;
            var id, category := s.sectionId, log[i].result.category;
            && multiset(items) == multiset(Matching(t.rows, t.runId, id))
            && if Matching(t.rows, t.runId, id) == [] then
                 id in final && final[id] == EmptyOutput(s) && category == None
               else if Surviving(t.cfg, s, items) == [] then
                 id in final && final[id] == EmptyOutput(s) && category == Some(ContextOverflow)
               else
                 || (id in final && category == None && GroundedInSurvivors(t.cfg, s, items, final[id]))
                 || ((id in final <==> id in extracts) && (id in extracts ==> final[id] == extracts[id])
                     && FailedFor(t.cfg, InputsOf(Surviving(t.cfg, s, items), id), t.script,
                                  InvokedBy(t.first, log[..i]), log[i].count, category))
  {
    hide EmptyOutput, Matching, StoreAll, GroundedInSurvivors, JustifiedFor, Surviving, AsksAbout, InvokedBy;
    EachSectionKeepsItsOwn(extracts, t.outline, log, i);
    var s, e := t.outline[i], log[i];
    assert Justified(t, s, prompts, InvokedBy(t.first, log[..i]), e);
    assert |multiset(e.items)| == |e.items|;
    assert |multiset(Matching(t.rows, t.runId, s.sectionId))| == |Matching(t.rows, t.runId, s.sectionId)|;
    SectionResultShape(t.cfg, s, e.items, t.script, InvokedBy(t.first, log[..i]), e.count, e.result);
  }

  lemma SectionResultShape(cfg: Config, section: PlannerSection, items: seq<EvidenceItem>,
                           script: nat -> Reply, start: nat, n: nat, r: SectionResult)
    requires JustifiedFor(cfg, section, items, script, start, n, r) && r.Done?
    ensures if items == [] then r == Done(Some(EmptyOutput(section)), None)
            else if Surviving(cfg, section, items) == [] then
                r == Done(Some(EmptyOutput(section)), Some(ContextOverflow))
            else
              match r.extract
              case None => FailedFor(cfg, InputsOf(Surviving(cfg, section, items), section.sectionId), script, start,
                                     n, r.category)
              case Some(out) => r.category == None && GroundedInSurvivors(cfg, section, items, out)
  {
    hide Grounded, Overflows, EmptyOutput, FirstViolation, Surviving, DroppedPapers, InputsOf, Matching;
    if items != [] {
      var used, dropped := Surviving(cfg, section, items), DroppedPapers(cfg, section, items);
      if used != [] {
        var a :| Decides(cfg, InputsOf(used, section.sectionId), script, start, n, a) && r == ResultOf(a, dropped);
        if a.Accepted? {
          AcceptedIsGrounded(cfg, InputsOf(used, section.sectionId), script, start, n, a);
          assert GroundedIn(r.extract.value, used, section.sectionId, dropped);
        }
      }
    }
  }

  lemma AcceptedIsGrounded(cfg: Config, inp: Inputs, script: nat -> Reply, start: nat, n: nat, a: Attempt)
    requires Decides(cfg, inp, script, start, n, a) && a.Accepted?
    ensures Grounded(a.output, inp)
  {
    NoViolationIsGrounded(a.output, inp);
  }

  lemma NoViolationIsGrounded(out: SynthesizerOutput, inp: Inputs)
    requires FirstViolation(out, inp).None?
    ensures Grounded(out, inp)
  {
    hide PapersKnown, EvidenceKnown, FactsConsistent, CellsConsistent, SynthesisSupported, ClaimsConsistent,
         CategoriesBacked;
  }

  // ---- Citations ----------------------------------------------------------

  /** A row of this run and section has the id. */
  ghost predicate CitesRow(rows: seq<EvidenceItem>, runId: string, sectionId: string, evidenceId: string) {
    exists x :: x in rows && x.evidenceId == evidenceId && x.runId == runId && x.sectionId == sectionId
  }

  ghost predicate CitesRowOf(rows: seq<EvidenceItem>, runId: string, sectionId: string, evidenceId: string,
                             paperId: string) {
    exists x :: x in rows && x.evidenceId == evidenceId && x.runId == runId && x.sectionId == sectionId
        && x.paperId == paperId
  }

  /** Every evidence id an extract cites is a row of its run and section, and a claim's
      row is from the paper the claim names. */
  ghost predicate WellCited(out: SynthesizerOutput, rows: seq<EvidenceItem>, runId: string, sectionId: string) {
    && (forall c :: c in out.claims ==> CitesRowOf(rows, runId, sectionId, c.evidenceId, c.paperId))
    && (forall s, e :: s in out.synthesis && e in s.evidenceIds ==> CitesRow(rows, runId, sectionId, e))
  }

  lemma {:induction false} GatherTakesFromItems(ps: seq<string>, items: seq<EvidenceItem>, x: EvidenceItem)
    requires x in Gather(ps, items)
    ensures x in items
  {
    var n := |ps| - 1;
    if x in Gather(ps[..n], items) {
      GatherTakesFromItems(ps[..n], items, x);
    } else {
      ItemsOfCounts(items, ps[n], x);
      assert x in multiset(ItemsOf(items, ps[n]));
      assert x in multiset(items);
    }
  }

  lemma GroundedIsWellCited(out: SynthesizerOutput, used: seq<EvidenceItem>, rows: seq<EvidenceItem>, runId: string,
                            sectionId: string)
    requires Grounded(out, InputsOf(used, sectionId))
    requires forall x :: x in used ==> x in rows && x.runId == runId && x.sectionId == sectionId
    ensures WellCited(out, rows, runId, sectionId)
  {
    var inp := InputsOf(used, sectionId);
    forall c | c in out.claims ensures CitesRowOf(rows, runId, sectionId, c.evidenceId, c.paperId) {
      assert Backs(inp, c.evidenceId, c.paperId);
    }
    forall s, e | s in out.synthesis && e in s.evidenceIds ensures CitesRow(rows, runId, sectionId, e) {
      assert e in inp.evidenceIds;
      var x :| x in used && x.evidenceId == e;
    }
  }

  /** Whatever the model replies, an extract the node stores is well cited. */
  lemma StoredExtractIsWellCited(t: Task, section: PlannerSection, prompts: seq<seq<Message>>, start: nat, e: Entry)
    requires Justified(t, section, prompts, start, e) && e.result.Done? && e.result.extract.Some?
    ensures WellCited(e.result.extract.value, t.rows, t.runId, section.sectionId)
  {
    hide Grounded, Assess, InputsOf, Matching, Decides, Surviving, DroppedPapers, AsksAbout, WellCited,
         WithTruncationGap;
    var id, items := section.sectionId, e.items;
    var used, dropped := Surviving(t.cfg, section, items), DroppedPapers(t.cfg, section, items);
    if items == [] || used == [] {
      EmptyIsWellCited(section, t.rows, t.runId);
    } else {
      var a :| Decides(t.cfg, InputsOf(used, id), t.script, start, e.count, a) && e.result == ResultOf(a, dropped);
      AcceptedIsGrounded(t.cfg, InputsOf(used, id), t.script, start, e.count, a);
      forall x | x in used ensures x in t.rows && x.runId == t.runId && x.sectionId == id {
        SurvivingIsRead(t.cfg, section, items, x);
        assert x in multiset(items);
        assert x in Matching(t.rows, t.runId, id);
        MatchingMembers(t.rows, t.runId, id, x);
      }
      GroundedIsWellCited(a.output, used, t.rows, t.runId, id);
      GapCitesNothing(a.output, dropped, t.rows, t.runId, id);
    }
  }

  lemma EmptyIsWellCited(section: PlannerSection, rows: seq<EvidenceItem>, runId: string)
    ensures WellCited(EmptyOutput(section), rows, runId, section.sectionId)
  {
  }

  lemma GapCitesNothing(out: SynthesizerOutput, dropped: seq<string>, rows: seq<EvidenceItem>, runId: string,
                        sectionId: string)
    requires WellCited(out, rows, runId, sectionId)
    ensures WellCited(WithTruncationGap(out, dropped), rows, runId, sectionId)
  {
  }

  lemma SurvivingIsRead(cfg: Config, section: PlannerSection, items: seq<EvidenceItem>, x: EvidenceItem)
    requires x in Surviving(cfg, section, items)
    ensures x in items
  {
    hide Greedy, Ranked, Gather, EstimateTokens;
    if Overflows(cfg, section, items) {
      GatherTakesFromItems(Greedy(Ranked(items), items, EstimateTokens(cfg.template(section)), MAX_TOKENS).0, items, x);
    }
  }

  ghost predicate AllCited(t: Task, extracts: map<string, SynthesizerOutput>) {
    forall id :: id in extracts ==> WellCited(extracts[id], t.rows, t.runId, id)
  }

  lemma StoreKeepsCited(t: Task, extracts: map<string, SynthesizerOutput>, sectionId: string, r: SectionResult)
    requires AllCited(t, extracts)
    requires r.Done? && r.extract.Some? ==> WellCited(r.extract.value, t.rows, t.runId, sectionId)
    ensures AllCited(t, Store1(extracts, sectionId, r))
  {
    hide WellCited;
  }

  lemma LogPrefix(t: Task, prompts: seq<seq<Message>>, log: seq<Entry>)
    requires LogJustified(t, prompts, log) && log != []
    ensures var n := |log| - 1;
            && LogJustified(t, prompts, log[..n])
            && Justified(t, t.outline[n], prompts, InvokedBy(t.first, log[..n]), log[n])
  {
    hide Justified;
    var n := |log| - 1;
    forall i | 0 <= i < n ensures Justified(t, t.outline[i], prompts, InvokedBy(t.first, log[..n][..i]), log[..n][i]) {
      assert log[..n][..i] == log[..i];
    }
  }

  /** The prompt of a section is within the budget of 96000 tokens but for the rounding of
      the accounting: at most (5P + 2) / 4 tokens more, for P papers. */
  lemma PromptIsBounded(cfg: Config, section: PlannerSection, items: seq<EvidenceItem>)
    requires Surviving(cfg, section, items) != []
    ensures var used := Surviving(cfg, section, items);
            EstimateTokens(BuildUserMessage(cfg.template(section), used)) <= 96000 + (5 * |PapersOf(used)| + 2) / 4
  {
    hide PackedTokens, EstimateTokens, BuildUserMessage, PapersOf, Selection;
    var used := Surviving(cfg, section, items);
    SelectionFits(items, EstimateTokens(cfg.template(section)), MAX_TOKENS);
    EstimateError(cfg.template(section), used);
  }

  /** Every extract after the node is well cited if every incoming one was; repeated
      section ids do not matter. */
  lemma {:induction false} AllExtractsWellCited(t: Task, prompts: seq<seq<Message>>, log: seq<Entry>,
                                                extracts: map<string, SynthesizerOutput>)
    requires LogJustified(t, prompts, log) && AllCited(t, extracts)
    ensures AllCited(t, StoreAll(extracts, t.outline, log))
    decreases |log|
  {
    hide LogJustified, Justified, WellCited, AllCited, Store1, InvokedBy;
    LogFits(t, prompts, log);
    if log != [] {
      var n := |log| - 1;
      LogPrefix(t, prompts, log);
      AllExtractsWellCited(t, prompts, log[..n], extracts);
      var e := log[n];
      if e.result.Done? && e.result.extract.Some? {
        StoredExtractIsWellCited(t, t.outline[n], prompts, InvokedBy(t.first, log[..n]), e);
      }
      StoreKeepsCited(t, StoreAll(extracts, t.outline, log[..n]), t.outline[n].sectionId, e.result);
    }
  }

  lemma LogFits(t: Task, prompts: seq<seq<Message>>, log: seq<Entry>)
    requires LogJustified(t, prompts, log)
    ensures |log| <= |t.outline| && InvokedBy(t.first, log) <= |prompts|
  {
    hide Justified, InvokedBy;
  }
}
