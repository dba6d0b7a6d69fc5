/** A paper noted under two sections (agents/researcher_deep.py): one section's call
    fails, the other's is accepted, and that one acceptance takes the paper out of the
    queue. */
module SharedPaper {
  import opened Prelude
  import opened Errors
  import opened Json
  import opened Schemas
  import opened Llm
  import opened StructuredCall
  import opened EvidenceStore
  import opened EvidenceIds
  import opened Wide
  import opened Deep

  const PAPER := "s2:p"
  const IDS := [PAPER]
  const FIRST := PlannerSection("A", "", [], [])
  const SECOND := PlannerSection("B", "", [], [])
  const NOTE := Wide.Note(PAPER, "", "s2", "", true, false)
  const CARD := EvidenceCard("", PAPER, "B", "claim", None, 1.0)
  const ANSWER := DeepOutput("B", [PAPER], [CARD], [])

  /** Every paper has an abstract, and every reply parses as the same answer. */
  const KIT := Deep.Kit((tool: string, id: string, tick: nat) => Found(Some("text")),
                        (section: PlannerSection, ids: seq<string>) => "",
                        Format("answer", false, "", (text: string) => Some(JNull), (v: Json) => None),
                        (v: Json) => Some(ANSWER))

  /** The provider turns the first invocation away and answers all others. */
  const SCRIPT: nat -> Reply :=
    i => if i == 0 then Failed(Exc(HttpStatus(429), "")) else Answered(AiMessage([], "answer", None))

  const PASS := Pass(KIT, [FIRST, SECOND], map["A" := [NOTE], "B" := [NOTE]], IDS, "run_1", [], SCRIPT, 0)

  const TURN_A := Entry(FIRST, IDS, 0, 0, 1, Rejected(Provider429))
  const TURN_B := Entry(SECOND, IDS, 1, 1, 1, Accepted(ANSWER, {PAPER}, 1))
  const LOG := [TURN_A, TURN_B]

  ghost function Prompts(): seq<seq<Message>> {
    var user := "\n\n### Available paper abstracts:\n\n### Paper s2:p\ntext";
    var prompt := FirstPrompt(KIT.format, [Human(user)]);
    [prompt, prompt]
  }

  lemma Fetches(tick: nat)
    ensures FetchAll(KIT, IDS, tick) == Ok(Abstracts(IDS, map[PAPER := "text"]))
  {
    assert PAPER[0] != "web:"[0];
    assert FetchAbstract(KIT, PAPER, tick) == Ok(Some("text"));
    assert IDS[..0] == [];
    assert FetchAll(KIT, IDS[..0], tick) == Ok(Abstracts([], map[]));
    hide FetchAbstract;
    assert IDS[0] == PAPER && |IDS| == 1;
    var none: map<string, string> := map[];
    assert FetchAll(KIT, IDS, tick) == Ok(Abstracts([] + [PAPER], none[PAPER := "text"]));
    assert [] + [PAPER] == IDS && none[PAPER := "text"] == map[PAPER := "text"];
  }

  lemma Calls(section: PlannerSection, tick: nat)
    ensures CallOf(KIT, section, IDS, tick)
            == Some([Human("\n\n### Available paper abstracts:\n\n### Paper s2:p\ntext")])
  {
    hide FetchAll;
    Fetches(tick);
    var a := Abstracts(IDS, map[PAPER := "text"]);
    assert UserMessage(KIT, section, a) == "\n\n### Available paper abstracts:\n\n### Paper s2:p\ntext";
  }

  lemma Settles()
    ensures Settle(KIT.format, SCRIPT, 0, 2) == (Propagated(Exc(HttpStatus(429), "")), 1)
    ensures Settle(KIT.format, SCRIPT, 1, 2) == (Parsed(JNull), 2)
  {
  }

  lemma AcceptsAnswer()
    ensures Acceptable(ANSWER, "B", {PAPER})
  {
    assert Elems([PAPER]) == {PAPER};
  }

  lemma Verdicts()
    ensures SectionVerdict(KIT, FIRST, IDS, 0, "run_1", [], SCRIPT, 0) == TURN_A.verdict
    ensures SectionVerdict(KIT, SECOND, IDS, 1, "run_1", [], SCRIPT, 1) == TURN_B.verdict
  {
    hide FetchAll, Settle, UserMessage, Acceptable, RowsFrom, EvidenceId;
    Fetches(0);
    Fetches(1);
    Calls(FIRST, 0);
    Calls(SECOND, 1);
    Settles();
    AcceptsAnswer();
    assert map[PAPER := "text"].Keys == {PAPER};
    assert forall n :: !HasId([], EvidenceId("run_1", "B", n));
  }

  lemma Sections()
    ensures SectionOf(PASS.outline, "A") == Some(FIRST) && SectionOf(PASS.outline, "B") == Some(SECOND)
    ensures QueuedPapers(PASS.notes["A"], IDS) == IDS && QueuedPapers(PASS.notes["B"], IDS) == IDS
  {
    assert PASS.outline[..1] == [FIRST];
    assert [NOTE][1..] == [];
  }

  /** Both turns happen as logged; the paper is noted under both sections and queued, one
      section is rejected, and the queue is empty afterwards. */
  lemma OneAcceptanceIsEnough()
    ensures LogOk(PASS, Prompts(), LOG)
    ensures LOG[0].verdict.Rejected? && LOG[1].verdict.Accepted?
    ensures PAPER in PASS.queue && Noted(PASS.notes["A"], PAPER) && Noted(PASS.notes["B"], PAPER)
    ensures Remaining(PASS.queue, Processed(LOG)) == []
  {
    hide SectionVerdict, Asked, CallOf, SectionOf, QueuedPapers, Settle, Remaining, Processed, PromptAt;
    Sections();
    Verdicts();
    TurnsAsk();
    assert LOG[..0] == [] && LOG[..1] == [TURN_A];
    assert PASS.notes["A"][0].paperId == PAPER && PASS.notes["B"][0].paperId == PAPER;
    assert PASS.initial + AllRows(LOG[..0], PASS.runId) == [] && PASS.initial + AllRows(LOG[..1], PASS.runId) == [];
    assert Follows(PASS, Prompts(), LOG[..0], LOG[0]) && Follows(PASS, Prompts(), LOG[..1], LOG[1]);
    assert LOG[1].verdict.Accepted? && PAPER in LOG[1].verdict.input;
    Leaves(Processed(LOG));
  }

  lemma TurnsAsk()
    ensures Asked(KIT, FIRST, IDS, 0, SCRIPT, 0) == 1 && AskedAs(KIT, FIRST, IDS, 0, SCRIPT, Prompts(), 0)
    ensures Asked(KIT, SECOND, IDS, 1, SCRIPT, 1) == 1 && AskedAs(KIT, SECOND, IDS, 1, SCRIPT, Prompts(), 1)
  {
    hide CallOf, Settle, FirstPrompt;
    Calls(FIRST, 0);
    Calls(SECOND, 1);
    Settles();
  }

  lemma Leaves(processed: set<string>)
    requires PAPER in processed
    ensures Remaining(IDS, processed) == []
  {
    assert IDS[..0] == [];
  }
}
