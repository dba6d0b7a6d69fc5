/** The run from the planner's outline to the drafts (graph.py): Wide, Deep, Synthesizer
    and Writer over one evidence table. */
module Pipeline {
  import opened Prelude
  import opened Errors
  import opened Schemas
  import opened Budget
  import opened Llm
  import opened ToolGateway
  import opened EvidenceStore
  import EvidenceIds
  import React
  import Wide
  import Deep
  import Synthesizer
  import Writer

  /** Everything the nodes are built with. */
  datatype Setup = Setup(wide: React.Kit, wideTemplate: PlannerSection -> string, deep: Deep.Kit,
                         synthesizer: Synthesizer.Config)

  /** The final state, or a node raised. `queue` is Wide's, `left` Deep's; `noted` is the
      error category left on the run's row. */
  datatype RunResult =
    | Published(notes: map<string, seq<Wide.Note>>, queue: seq<string>, left: seq<string>,
                extracts: map<string, SynthesizerOutput>, drafts: map<string, seq<Writer.Line>>,
                noted: Option<ErrorCategory>)
    | Halted(cause: HaltCause)

  /** The node that raised, and what it raised; Deep's None is the taken primary key. */
  datatype HaltCause = InWide(failure: Wide.WideFailure) | InDeep(raised: Option<Exc>) | InSynthesizer(exc: Exc)

  /** What a run starts from: its first invocation of the model is number `first`, and it
      meets the tools as `scene` and finds the evidence table as `initial`. */
  datatype Start = Start(setup: Setup, outline: seq<PlannerSection>, runId: string, script: nat -> Reply, first: nat,
                         scene: React.Scene, initial: seq<EvidenceItem>)

  /** The nodes' histories; `cut` is Wide's unfinished conversation when it raised. */
  datatype Trace = Trace(steps: seq<Wide.Step>, cut: seq<React.Turn>, deep: seq<Deep.Entry>,
                         synthesizer: seq<Synthesizer.Entry>)

  ghost function SurveyOf(s: Start): Wide.Survey {
    Wide.Survey(s.setup.wide, s.setup.wideTemplate, s.outline, s.runId, s.script, s.first, s.scene)
  }

  /** Deep starts from what Wide's history leads to. */
  ghost function PassOf(s: Start, t: Trace): Deep.Pass
    requires |t.steps| <= |s.outline|
  {
    Deep.Pass(s.setup.deep, s.outline, Wide.NotesAll(map[], s.outline, t.steps), Wide.QueueAll([], t.steps), s.runId,
              s.initial, s.script, Wide.InvokedBy(s.first, t.steps))
  }

  /** The Synthesizer starts from what Deep's history leads to. */
  ghost function TaskOf(s: Start, t: Trace): Synthesizer.Task {
    Synthesizer.Task(s.setup.synthesizer, s.initial + Deep.AllRows(t.deep, s.runId), s.runId, s.outline, s.script,
                     Deep.InvokedBy(Wide.InvokedBy(s.first, t.steps), t.deep))
  }

  ghost predicate WideDid(s: Start, prompts: seq<seq<Message>>, t: Trace) {
    && |t.steps| == |s.outline| && s.outline != [] && t.cut == []
    && StepsDone(s, prompts, t)
  }

  /** Each step's notes and ids follow from its conversation's outcome. */
  ghost predicate StepsDone(s: Start, prompts: seq<seq<Message>>, t: Trace) {
    && Wide.AllTold(SurveyOf(s), prompts, t.steps) && |t.steps| <= |s.outline|
    && forall i :: 0 <= i < |t.steps| ==> Wide.StepOk(s.outline[i], t.steps[i])
  }

  ghost predicate DeepDid(s: Start, prompts: seq<seq<Message>>, t: Trace) {
    && WideDid(s, prompts, t)
    && var p := PassOf(s, t);
       && Deep.LogOk(p, prompts, t.deep) && Deep.Covered(s.outline, p.notes, p.queue, {}, t.deep)
       && forall k :: 0 <= k < |t.deep| ==> !t.deep[k].verdict.Stopped?
  }

  /** The result is the one the histories lead to, node after node; a node that raised
      was led to it by its history, too. */
  ghost predicate Follows(s: Start, prompts: seq<seq<Message>>, r: RunResult, t: Trace) {
    match r
    case Published(notes, queue, left, extracts, drafts, noted) =>
      && DeepDid(s, prompts, t)
      && notes == PassOf(s, t).notes && queue == PassOf(s, t).queue
      && left == Deep.Remaining(queue, Deep.Processed(t.deep))
      && |t.synthesizer| == |s.outline| && Synthesizer.LogJustified(TaskOf(s, t), prompts, t.synthesizer)
      && |prompts| == Synthesizer.InvokedBy(TaskOf(s, t).first, t.synthesizer)
      && (forall i :: 0 <= i < |t.synthesizer| ==> t.synthesizer[i].result.Done?)
      && extracts == Synthesizer.StoreAll(map[], s.outline, t.synthesizer)
      && (forall i :: 0 <= i < |s.outline| ==> Writer.Drafted(extracts, drafts, s.outline[i].sectionId))
      && (forall i :: 0 <= i < |s.outline| && Writer.IsLast(s.outline, i) ==>
          Writer.LaidOut(extracts, drafts, s.outline[i]))
      && (forall id :: id in drafts ==> Writer.Listed(s.outline, id))
      && noted == if Synthesizer.LastCategory(t.synthesizer).Some? then Synthesizer.LastCategory(t.synthesizer)
                  else if Deep.LastCategoryOf(t.deep).Some? then Deep.LastCategoryOf(t.deep)
                  else Wide.LastCategory(t.steps)
    case Halted(InWide(failure)) =>
      && t.deep == [] && t.synthesizer == []
      && StepsDone(s, prompts, t) && Wide.FailsBy(SurveyOf(s), prompts, t.steps, t.cut, failure)
    case Halted(InDeep(raised)) =>
      && t.synthesizer == [] && WideDid(s, prompts, t)
      && Deep.LogOk(PassOf(s, t), prompts, t.deep) && |prompts| == TaskOf(s, t).first
      && t.deep != [] && t.deep[|t.deep| - 1].verdict == Deep.Stopped(raised)
      && (forall k :: 0 <= k < |t.deep| - 1 ==> !t.deep[k].verdict.Stopped?)
      && (raised.None? ==> Deep.Taken(s.initial, s.runId, t.deep[|t.deep| - 1].section.sectionId))
    case Halted(InSynthesizer(exc)) =>
      && DeepDid(s, prompts, t)
      && Synthesizer.LogJustified(TaskOf(s, t), prompts, t.synthesizer)
      && |prompts| == Synthesizer.InvokedBy(TaskOf(s, t).first, t.synthesizer)
      && t.synthesizer != [] && t.synthesizer[|t.synthesizer| - 1].result == Synthesizer.Aborted(exc)
      && (forall i :: 0 <= i < |t.synthesizer| - 1 ==> t.synthesizer[i].result.Done?)
  }

  /** The hand-off over a whole run: with distinct section ids, every paper Wide queued is
      among the papers of some section's turn in Deep. */
  lemma EveryQueuedPaperGetsATurn(s: Start, prompts: seq<seq<Message>>, r: RunResult, t: Trace, x: string)
    requires r.Published? && Follows(s, prompts, r, t) && Wide.DistinctSections(s.outline) && x in r.queue
    ensures exists k :: 0 <= k < |t.deep| && x in t.deep[k].ids
                        && InNotesOf(r, t.deep[k].section.sectionId, x)
  {
    hide Deep.LogOk, Wide.AllTold, Wide.StepOk, Synthesizer.LogJustified, Wide.QueueAll, Wide.NotesAll,
         Wide.AddedAndNoted, Deep.QueuedPapers, Wide.Noted, Deep.SectionOf, Synthesizer.StoreAll, Wide.InvokedBy,
         Synthesizer.InvokedBy;
    var p := PassOf(s, t);
    Wide.HandoffReachesDeep(map[], s.outline, [], t.steps);
    var j :| 0 <= j < |r.queue| && r.queue[j] == x;
    assert Wide.HandedOver(map[], s.outline, [], t.steps, j);
    var i :| 0 <= i < |t.steps| && Wide.AddedAndNoted(map[], s.outline, [], t.steps, i, j);
    var id := s.outline[i].sectionId;
    AddedIsNoted(s.outline, t.steps, i, j);
    TurnOfSection(p, prompts, t.deep, id, x);
  }

  ghost predicate InNotesOf(r: RunResult, sectionId: string, x: string)
    requires r.Published?
  {
    sectionId in r.notes && Wide.Noted(r.notes[sectionId], x)
  }

  lemma AddedIsNoted(outline: seq<PlannerSection>, steps: seq<Wide.Step>, i: nat, j: nat)
    requires i < |steps| <= |outline| && Wide.AddedAndNoted(map[], outline, [], steps, i, j)
    ensures var notes, id := Wide.NotesAll(map[], outline, steps), outline[i].sectionId;
            && j < |Wide.QueueAll([], steps)|
            && id in notes && Wide.Noted(notes[id], Wide.QueueAll([], steps)[j])
  {
  }

  /** A queued paper in the notes of an outline section is among the papers of its turn. */
  lemma TurnOfSection(p: Deep.Pass, prompts: seq<seq<Message>>, log: seq<Deep.Entry>, id: string, x: string)
    requires Deep.LogOk(p, prompts, log) && Deep.Covered(p.outline, p.notes, p.queue, {}, log)
    requires exists i :: 0 <= i < |p.outline| && p.outline[i].sectionId == id
    requires id in p.notes && Wide.Noted(p.notes[id], x) && x in p.queue
    ensures exists k :: 0 <= k < |log| && log[k].section.sectionId == id && x in log[k].ids
  {
    hide Deep.LogOk, Deep.AcceptedFairly, Deep.StoppedFairly, Deep.Taken, Wide.Noted;
    assert x in Deep.QueuedPapers(p.notes[id], p.queue);
    var i :| 0 <= i < |p.outline| && p.outline[i].sectionId == id;
    assert p.outline[i] in p.outline;
    assert Deep.SectionOf(p.outline, id).Some?;
    assert Deep.Visited(log, id);
    var k :| 0 <= k < |log| && log[k].section.sectionId == id;
    Deep.EntryIsFair(p, prompts, log, k);
  }

  /** What a caller learns from a halt: the exception is one the model's last invocation
      raised, or one a lookup of the last section raised, always without a category in
      Deep and the Synthesizer; the unknown id is one a tool returned; the taken id was
      taken before the run. */
  ghost predicate HaltsFor(s: Start, prompts: seq<seq<Message>>, cause: HaltCause, t: Trace) {
    match cause
    case InWide(NoOutline) => s.outline == []
    case InWide(ModelRaised(exc)) => prompts != [] && s.script(|prompts| - 1) == Failed(exc)
    case InWide(UnknownPrefix(id)) => Wide.SourceFromPrefix(id).None? && React.HasReturned(t.cut, id)
    case InDeep(None) => t.deep != [] && Deep.Taken(s.initial, s.runId, t.deep[|t.deep| - 1].section.sectionId)
    case InDeep(Some(exc)) =>
      && t.deep != [] && exc.category.None?
      && var e := t.deep[|t.deep| - 1];
         || Deep.LookupRaised(s.setup.deep, e.ids, e.tick, exc)
         || exists i :: e.start <= i < |prompts| && s.script(i) == Failed(exc)
    case InSynthesizer(exc) => exc.category.None? && prompts != [] && s.script(|prompts| - 1) == Failed(exc)
  }

  lemma HaltHasCause(s: Start, prompts: seq<seq<Message>>, r: RunResult, t: Trace)
    requires r.Halted? && Follows(s, prompts, r, t)
    ensures HaltsFor(s, prompts, r.cause, t)
  {
    hide Deep.LogOk, Deep.Taken, Deep.LookupRaised, Wide.AllTold, Wide.StepOk, Wide.SourceFromPrefix,
         React.HasReturned, Wide.Told, Synthesizer.LogJustified, DeepDid, Deep.AcceptedFairly, React.Conversation,
         Synthesizer.Justified;
    match r.cause {
      case InWide(ModelRaised(exc)) => CutIsLast(Wide.NextTalk(SurveyOf(s), t.steps), prompts, t.cut, exc);
      case InWide(_) =>
      case InDeep(raised) =>
        if raised.Some? {
          DeepHalts(PassOf(s, t), prompts, t.deep);
        }
      case InSynthesizer(exc) =>
        var log, n := t.synthesizer, |t.synthesizer| - 1;
        var task := TaskOf(s, t);
        Synthesizer.LogFits(task, prompts, log);
        Synthesizer.LogPrefix(task, prompts, log);
        Synthesizer.OnlyTheModelAborts(task, s.outline[n], prompts, Synthesizer.InvokedBy(task.first, log[..n]),
                                       log[n]);
    }
  }

  lemma CutIsLast(talk: React.Talk, prompts: seq<seq<Message>>, cut: seq<React.Turn>, exc: Exc)
    requires React.CutShort(talk, prompts, cut, exc)
    ensures prompts != [] && talk.script(|prompts| - 1) == Failed(exc)
  {
    hide React.Conversation, React.Transcript, React.InputTokens, React.Complete;
  }

  lemma DeepHalts(p: Deep.Pass, prompts: seq<seq<Message>>, log: seq<Deep.Entry>)
    requires Deep.LogOk(p, prompts, log) && log != []
    ensures var e := log[|log| - 1];
            && e.start + e.asked <= |prompts|
            && Deep.StoppedFairly(p.kit, e.ids, e.tick, p.script, e.start, e.asked, e.verdict)
  {
    hide Deep.Decided, Deep.AcceptedFairly, Deep.StoppedFairly, Deep.Taken, Deep.AllRows;
    Deep.EntryIsFair(p, prompts, log, |log| - 1);
  }

  /** The mark is the id of a row of this run and section, about a paper that is in the
      section's notes and was in the deep queue. */
  ghost predicate Resolves(rows: seq<EvidenceItem>, runId: string, notes: map<string, seq<Wide.Note>>,
                           queue: seq<string>, sectionId: string, mark: string)
  {
    exists x :: x in rows && x.evidenceId == mark && Supports(x, runId, notes, queue, sectionId)
  }

  ghost predicate Supports(x: EvidenceItem, runId: string, notes: map<string, seq<Wide.Note>>, queue: seq<string>,
                           sectionId: string) {
    && x.runId == runId && x.sectionId == sectionId
    && sectionId in notes && Wide.Noted(notes[sectionId], x.paperId) && x.paperId in queue
  }

  /** A row of the run can only have come from Deep's pass. */
  lemma RowOfTheRunIsSupported(p: Deep.Pass, prompts: seq<seq<Message>>, log: seq<Deep.Entry>, x: EvidenceItem)
    requires Deep.LogOk(p, prompts, log) && forall y :: y in p.initial ==> y.runId != p.runId
    requires x in p.initial + Deep.AllRows(log, p.runId) && x.runId == p.runId
    ensures Supports(x, p.runId, p.notes, p.queue, x.sectionId)
  {
    hide Deep.LogOk, Deep.AllRows, Deep.WrittenFor, EvidenceIds.EvidenceId, Deep.HadAbstract;
    Deep.RowsComeFromAcceptedSections(log, p.runId, x);
    var k :| 0 <= k < |log| && Deep.WrittenFor(log[k], p.runId, x);
    var n := Deep.WrittenRow(log[k], p.runId, x);
    AcceptedEntry(log[k], p.runId, x);
    Deep.AcceptedInput(p, prompts, log, k, x.paperId);
  }

  lemma AcceptedEntry(e: Deep.Entry, runId: string, x: EvidenceItem)
    requires Deep.WrittenFor(e, runId, x)
    ensures e.verdict.Accepted?
  {
  }

  lemma {:induction false} SynthesisMarkIsCited(claims: seq<SynthesisClaim>, mark: string)
    requires mark in Writer.SynthesisMarks(claims)
    ensures exists s :: s in claims && mark in s.evidenceIds
  {
    var n := |claims| - 1;
    if mark in claims[n].evidenceIds {
      assert claims[n] in claims;
    } else {
      SynthesisMarkIsCited(claims[..n], mark);
      var s :| s in claims[..n] && mark in s.evidenceIds;
      assert s in claims;
    }
  }

  /** Every mark of a well-cited extract is a row of its run and section. */
  lemma MarkIsARow(out: SynthesizerOutput, rows: seq<EvidenceItem>, runId: string, sectionId: string, mark: string)
    requires Synthesizer.WellCited(out, rows, runId, sectionId) && mark in Writer.CitedBy(out)
    ensures Synthesizer.CitesRow(rows, runId, sectionId, mark)
  {
    if mark in Writer.ClaimMarks(out.claims) {
      var i :| 0 <= i < |out.claims| && Writer.ClaimMarks(out.claims)[i] == mark;
      var c := out.claims[i];
      assert Synthesizer.CitesRowOf(rows, runId, sectionId, c.evidenceId, c.paperId);
    } else {
      SynthesisMarkIsCited(out.synthesis, mark);
    }
  }

  /** Every citation mark of every draft resolves; a claim's row is about the paper the
      claim names. */
  ghost predicate CitationsHold(r: RunResult, outline: seq<PlannerSection>, rows: seq<EvidenceItem>, runId: string)
    requires r.Published?
  {
    && (forall i, mark ::
          0 <= i < |outline| && outline[i].sectionId in r.drafts
          && mark in Writer.MarksOf(r.drafts[outline[i].sectionId]) ==>
            Resolves(rows, runId, r.notes, r.queue, outline[i].sectionId, mark))
    && (forall id, c :: id in r.extracts && c in r.extracts[id].claims ==>
          Synthesizer.CitesRowOf(rows, runId, id, c.evidenceId, c.paperId))
  }

  lemma CitationsFollow(r: RunResult, p: Deep.Pass, prompts: seq<seq<Message>>, log: seq<Deep.Entry>)
    requires r.Published? && Deep.LogOk(p, prompts, log) && r.notes == p.notes && r.queue == p.queue
    requires forall y :: y in p.initial ==> y.runId != p.runId
    requires var rows := p.initial + Deep.AllRows(log, p.runId);
             forall id :: id in r.extracts ==> Synthesizer.WellCited(r.extracts[id], rows, p.runId, id)
    requires forall i :: 0 <= i < |p.outline| ==> Writer.Drafted(r.extracts, r.drafts, p.outline[i].sectionId)
    ensures CitationsHold(r, p.outline, p.initial + Deep.AllRows(log, p.runId), p.runId)
  {
    hide Deep.LogOk, Deep.AllRows, Supports, Writer.MarksOf, Writer.CitedBy;
    var rows := p.initial + Deep.AllRows(log, p.runId);
    forall i, mark | 0 <= i < |p.outline| && p.outline[i].sectionId in r.drafts
                     && mark in Writer.MarksOf(r.drafts[p.outline[i].sectionId])
      ensures Resolves(rows, p.runId, r.notes, r.queue, p.outline[i].sectionId, mark)
    {
      var id := p.outline[i].sectionId;
      assert Writer.Drafted(r.extracts, r.drafts, id);
      MarkIsARow(r.extracts[id], rows, p.runId, id, mark);
      var x :| x in rows && x.evidenceId == mark && x.runId == p.runId && x.sectionId == id;
      RowOfTheRunIsSupported(p, prompts, log, x);
    }
  }

  // ---- Many runs over one table -------------------------------------------

  /** The id was generated for the row's own run and section. Run ids are "run_" and hex
      digits (runs.py:74), so they hold no dash. */
  ghost predicate GeneratedRow(x: EvidenceItem) {
    '-' !in x.runId && exists n: nat :: x.evidenceId == EvidenceIds.EvidenceId(x.runId, x.sectionId, n)
  }

  ghost predicate Generated(rows: seq<EvidenceItem>) {
    forall x :: x in rows ==> GeneratedRow(x)
  }

  /** A fresh run meets none of its ids in a table that earlier runs filled. */
  lemma FreshRunFindsNoIdTaken(initial: seq<EvidenceItem>, runId: string, sectionId: string)
    requires Generated(initial) && '-' !in runId && forall x :: x in initial ==> x.runId != runId
    ensures !Deep.Taken(initial, runId, sectionId)
  {
    hide EvidenceIds.EvidenceId;
    if Deep.Taken(initial, runId, sectionId) {
      var n: nat :| HasId(initial, EvidenceIds.EvidenceId(runId, sectionId, n));
      var x :| x in initial && x.evidenceId == EvidenceIds.EvidenceId(runId, sectionId, n);
      assert GeneratedRow(x);
      var m: nat :| x.evidenceId == EvidenceIds.EvidenceId(x.runId, x.sectionId, m);
      if |x.runId| <= |runId| {
        EvidenceIds.IdsCollideExactlyWhen(x.runId, x.sectionId, m, runId, sectionId, n);
        DashInside(x.runId, runId);
      } else {
        EvidenceIds.IdsCollideExactlyWhen(runId, sectionId, n, x.runId, x.sectionId, m);
        DashInside(runId, x.runId);
      }
    }
  }

  lemma DashInside(a: string, b: string)
    requires a + "-" <= b
    ensures '-' in b
  {
    assert (a + "-")[|a|] == b[|a|];
  }

  lemma RunKeepsGenerated(initial: seq<EvidenceItem>, log: seq<Deep.Entry>, runId: string)
    requires Generated(initial) && '-' !in runId
    ensures Generated(initial + Deep.AllRows(log, runId))
  {
    hide Deep.AllRows, Deep.WrittenFor, EvidenceIds.EvidenceId;
    forall x | x in Deep.AllRows(log, runId) ensures GeneratedRow(x) {
      Deep.RowsComeFromAcceptedSections(log, runId, x);
      var k :| 0 <= k < |log| && Deep.WrittenFor(log[k], runId, x);
      var n := Deep.WrittenRow(log[k], runId, x);
      assert x.evidenceId == EvidenceIds.EvidenceId(x.runId, x.sectionId, n);
    }
  }

  /** Whole-run citation integrity. For any outline, any model replies and any tool
      behaviour, a run that starts with no evidence of its own either halts in a node or
      publishes drafts all of whose citations resolve; ids stay unique throughout, so a
      mark resolves to one row. Over a table that only runs like this one have filled, the
      primary key is never violated. */
  method RunPipeline(setup: Setup, outline: seq<PlannerSection>, runId: string, store: Store, budget: BudgetManager,
                     llm: LlmClient, table: Table, world: React.World)
    returns (r: RunResult, ghost t: Trace)
    requires UniqueIds(store.rows) && forall x :: x in store.rows ==> x.runId != runId
    modifies store, budget, llm, table, world
    ensures old(llm.prompts) <= llm.prompts
    ensures var s := Start(setup, outline, runId, llm.script, |old(llm.prompts)|, old(React.SceneOf(table, world)),
                       old(store.rows));
            && Follows(s, llm.prompts, r, t)
            && (r.Halted? ==> HaltsFor(s, llm.prompts, r.cause, t))
    ensures store.rows == old(store.rows) + Deep.AllRows(t.deep, runId) && UniqueIds(store.rows)
    ensures React.SceneOf(table, world) == React.SceneAfterTurns(setup.wide, runId,
                            Wide.SceneAfterSteps(setup.wide, runId, old(React.SceneOf(table, world)), t.steps), t.cut)
    ensures r.Published? ==> CitationsHold(r, outline, store.rows, runId) && Subsequence(r.left, r.queue)
    ensures Generated(old(store.rows)) && '-' !in runId ==> Generated(store.rows) && r != Halted(InDeep(None))
  {
    hide Deep.LogOk, Deep.AllRows, Deep.Covered, Deep.Taken, Deep.Remaining, Deep.Processed, Deep.InvokedBy,
         Wide.AllTold, Wide.StepOk, Wide.FailsBy, Wide.InvokedBy, Wide.NotesAll, Wide.QueueAll,
         Wide.SceneAfterSteps, React.SceneAfterTurns, Synthesizer.LogJustified, Synthesizer.WellCited,
         Synthesizer.InvokedBy, Synthesizer.StoreAll, Wide.LastCategory, Deep.LastCategoryOf,
         Synthesizer.LastCategory, CitationsHold, UniqueIds, Writer.Drafted, Writer.LaidOut, Writer.IsLast,
         Writer.Listed, GeneratedRow, HaltsFor, Generated;
    ghost var s := Start(setup, outline, runId, llm.script, |llm.prompts|, React.SceneOf(table, world), store.rows);
    var wide, steps, cut :=
        Wide.Run(setup.wide, setup.wideTemplate, outline, map[], [], runId, llm, budget, table, world);
    t := Trace(steps, cut, [], []);
    ghost var told := llm.prompts;
    NoRows(runId);
    if wide.WideRaised? {
      r := Halted(InWide(wide.cause));
      HaltHasCause(s, llm.prompts, r, t);
      return;
    }
    var deep, deepLog := Deep.Run(setup.deep, outline, wide.notes, wide.queue, runId, store, budget, llm);
    t := t.(deep := deepLog);
    ghost var p, read := PassOf(s, t), llm.prompts;
    Wide.ToldByMore(SurveyOf(s), told, read, steps);
    if Generated(s.initial) && '-' !in runId {
      RunKeepsGenerated(s.initial, deepLog, runId);
      if deep == Deep.DeepRaised(None) {
        FreshRunFindsNoIdTaken(s.initial, runId, deepLog[|deepLog| - 1].section.sectionId);
        assert false;
      }
    }
    if deep.DeepRaised? {
      r := Halted(InDeep(deep.exc));
      HaltHasCause(s, llm.prompts, r, t);
      return;
    }
    var synthesized, synthLog := Synthesizer.Run(setup.synthesizer, outline, map[], runId, store, budget, llm);
    t := t.(synthesizer := synthLog);
    Wide.ToldByMore(SurveyOf(s), read, llm.prompts, steps);
    Deep.LogStays(p, read, llm.prompts, deepLog);
    assert DeepDid(s, llm.prompts, t);
    if synthesized.NodeRaised? {
      r := Halted(InSynthesizer(synthesized.exc));
      HaltHasCause(s, llm.prompts, r, t);
      return;
    }
    var drafts := Writer.Write(outline, synthesized.extracts, map[]);
    var noted := wide.category;
    if deep.category.Some? { noted := deep.category; }
    if synthesized.category.Some? { noted := synthesized.category; }
    r := Published(wide.notes, wide.queue, deep.queue, synthesized.extracts, drafts, noted);
    Synthesizer.AllExtractsWellCited(TaskOf(s, t), llm.prompts, synthLog, map[]);
    CitationsFollow(r, p, llm.prompts, deepLog);
    Deep.RemainingKeepsOrder(p.queue, Deep.Processed(deepLog));
  }

  lemma NoRows(runId: string)
    ensures Deep.AllRows([], runId) == []
  {
  }
}
