/** The hand-off from Researcher-Wide to Researcher-Deep (agents/researcher_wide.py, the
    node's loop over the outline). */
module Wide {
  import opened Prelude
  import opened Errors
  import opened Schemas
  import opened Budget
  import opened Llm
  import opened ToolGateway
  import opened React

  const MAX_HANDOFF := 3

  // ---- String order -------------------------------------------------------

  /** Python's order on strings: lexicographic by code point. */
  predicate Before(a: string, b: string) {
    if b == "" then false
    else if a == "" then true
    else if a[0] != b[0] then a[0] < b[0]
    else Before(a[1..], b[1..])
  }

  lemma {:induction false} BeforeIsTransitive(a: string, b: string, c: string)
    requires Before(a, b) && Before(b, c)
    ensures Before(a, c)
  {
    if a != "" && a[0] == b[0] && b[0] == c[0] { BeforeIsTransitive(a[1..], b[1..], c[1..]); }
  }

  lemma {:induction false} BeforeIsTotal(a: string, b: string)
    ensures Before(a, b) || Before(b, a) || a == b
    ensures !(Before(a, b) && Before(b, a)) && !Before(a, a)
  {
    if a != "" && b != "" && a[0] == b[0] {
      BeforeIsTotal(a[1..], b[1..]);
      assert a == [a[0]] + a[1..] && b == [b[0]] + b[1..];
    }
    BeforeIsIrreflexive(a);
  }

  lemma {:induction false} BeforeIsIrreflexive(a: string)
    ensures !Before(a, a)
  {
    if a != "" { BeforeIsIrreflexive(a[1..]); }
  }

  /** The order in words: at the first difference the smaller character decides, and a
      proper beginning comes first. */
  ghost predicate DiffersUpwardsAt(a: string, b: string, k: nat) {
    k <= |a| && k < |b| && a[..k] == b[..k] && (k == |a| || a[k] < b[k])
  }

  lemma {:induction false} BeforeExactlyWhen(a: string, b: string)
    ensures Before(a, b) <==> exists k: nat :: DiffersUpwardsAt(a, b, k)
  {
    if a == "" || b == "" || a[0] != b[0] {
      if Before(a, b) { assert DiffersUpwardsAt(a, b, 0); }
    } else {
      BeforeExactlyWhen(a[1..], b[1..]);
      if Before(a, b) {
        var k: nat :| DiffersUpwardsAt(a[1..], b[1..], k);
        assert a[..k + 1] == [a[0]] + a[1..][..k] && b[..k + 1] == [b[0]] + b[1..][..k];
        assert DiffersUpwardsAt(a, b, k + 1);
      }
      if k: nat :| DiffersUpwardsAt(a, b, k) {
        assert k > 0;
        assert a[1..][..k - 1] == a[..k][1..] && b[1..][..k - 1] == b[..k][1..];
        assert DiffersUpwardsAt(a[1..], b[1..], k - 1);
      }
    }
  }

  ghost predicate Ascending(s: seq<string>) {
    forall i, j :: 0 <= i < j < |s| ==> Before(s[i], s[j])
  }

  function InsertInOrder(x: string, s: seq<string>): (r: seq<string>)
    ensures Elems(r) == Elems(s) + {x}
    ensures Ascending(s) && x !in s ==> Ascending(r)
  {
    if s == [] then [x]
    else if Before(x, s[0]) then
      assert Ascending(s) ==> forall i :: 0 < i < |s| ==> Before(x, s[i]) by {
        if Ascending(s) { forall i | 0 < i < |s| ensures Before(x, s[i]) { BeforeIsTransitive(x, s[0], s[i]); } }
      }
      [x] + s
    else
      var rest := InsertInOrder(x, s[1..]);
      assert Elems(s) == {s[0]} + Elems(s[1..]);
      assert Elems([s[0]] + rest) == {s[0]} + Elems(rest);
      assert Ascending(s) && x !in s ==> Ascending([s[0]] + rest) by {
        if Ascending(s) && x !in s {
          BeforeIsTotal(x, s[0]);
          forall i | 0 <= i < |rest| ensures Before(s[0], rest[i]) {
            assert rest[i] in Elems(rest);
            if rest[i] != x { assert rest[i] in s[1..]; }
          }
        }
      }
      [s[0]] + rest
  }

  /** sorted() of a set, whatever order the set is traversed in. */
  method SortSet(s: set<string>) returns (r: seq<string>)
    ensures Ascending(r) && Elems(r) == s
  {
    r := [];
    var left := s;
    while left != {}
      invariant left <= s && Elems(r) == s - left && Ascending(r)
      decreases |left|
    {
      var x :| x in left;
      assert x !in Elems(r);
      left := left - {x};
      r := InsertInOrder(x, r);
    }
  }

  lemma NoElements(s: seq<string>)
    ensures s == [] <==> Elems(s) == {}
  {
    if s != [] { assert s[0] in Elems(s); }
  }

  /** A set has one ascending enumeration, so the traversal order leaves no trace. */
  lemma {:induction false} AscendingIsUnique(a: seq<string>, b: seq<string>)
    requires Ascending(a) && Ascending(b) && Elems(a) == Elems(b)
    ensures a == b
    decreases |a|
  {
    if a == [] {
      NoElements(b);
    } else {
      assert a[0] in Elems(b);
      assert b != [];
      assert b[0] in Elems(a);
      assert a[0] == b[0] by {
        if a[0] != b[0] {
          assert Before(b[0], a[0]) by { assert a[0] in b; }
          assert Before(a[0], b[0]) by { assert b[0] in a; }
          BeforeIsTotal(a[0], b[0]);
        }
      }
      forall x ensures x in Elems(a[1..]) <==> x in Elems(b[1..]) {
        BeforeIsIrreflexive(a[0]);
        assert a == [a[0]] + a[1..] && b == [b[0]] + b[1..];
        assert x in Elems(a) <==> x in Elems(b);
        if x == a[0] {
          assert x !in a[1..] && x !in b[1..];
        }
      }
      AscendingIsUnique(a[1..], b[1..]);
    }
  }

  // ---- Hand-off -----------------------------------------------------------

  /** A section_notes entry: a triaged candidate or a forced-exit stub. */
  datatype Note = Note(paperId: string, title: string, source: string, whyRelevant: string,
                       handoffToDeep: bool, forcedExitStub: bool)

  function NoteOf(p: CandidatePaper): Note {
    Note(p.paperId, p.title, p.source, p.whyRelevant, p.handoffToDeep, false)
  }

  /** _source_from_prefix; None is the ValueError. */
  function SourceFromPrefix(id: string): Option<string> {
    if "arxiv:" <= id then Some("arxiv")
    else if "s2:" <= id then Some("s2")
    else if "web:" <= id then Some("web")
    else None
  }

  function StubFor(id: string, source: string): Note {
    Note(id, "", source, "<forced-exit stub: not triaged by Wide>", true, true)
  }

  /** The ids a completed section adds: flagged, not queued yet, at most `room`. */
  function FlaggedAdds(papers: seq<CandidatePaper>, queue: seq<string>, room: nat): (r: seq<string>)
    ensures |r| <= room
  {
    if papers == [] then []
    else
      var p := papers[0];
      if p.handoffToDeep && p.paperId !in queue && room > 0
      then [p.paperId] + FlaggedAdds(papers[1..], queue + [p.paperId], room - 1)
      else FlaggedAdds(papers[1..], queue, room)
  }

  /** Flagged ids not in `queue`, each at its first appearance. */
  function FreshFlagged(papers: seq<CandidatePaper>, queue: seq<string>): seq<string> {
    if papers == [] then []
    else
      var p := papers[0];
      if p.handoffToDeep && p.paperId !in queue
      then [p.paperId] + FreshFlagged(papers[1..], queue + [p.paperId])
      else FreshFlagged(papers[1..], queue)
  }

  /** The ids a forced exit adds, out of the capped ascending list. */
  function CappedAdds(ids: seq<string>, queue: seq<string>): (r: seq<string>)
    ensures |r| <= |ids|
  {
    if ids == [] then []
    else if ids[0] !in queue then [ids[0]] + CappedAdds(ids[1..], queue + [ids[0]])
    else CappedAdds(ids[1..], queue)
  }

  function Capped(ascending: seq<string>): seq<string> {
    if |ascending| <= MAX_HANDOFF then ascending else ascending[..MAX_HANDOFF]
  }

  /** What one section does to the queue, given its conversation's outcome and the
      ascending list of the ids seen. */
  function QueueAfter(queue: seq<string>, o: Outcome, ascending: seq<string>): seq<string> {
    match o.output
    case Some(out) => queue + FlaggedAdds(out.candidatePapers, queue, MAX_HANDOFF)
    case None => queue + CappedAdds(Capped(ascending), queue)
  }

  ghost predicate IsStub(n: Note) {
    && SourceFromPrefix(n.paperId) == Some(n.source)
    && n.title == "" && n.whyRelevant == "<forced-exit stub: not triaged by Wide>" && n.handoffToDeep
      && n.forcedExitStub
  }

  /** The note has the candidate's fields, and is no stub. */
  ghost predicate IsNoteOf(n: Note, p: CandidatePaper) {
    && n.paperId == p.paperId && n.title == p.title && n.source == p.source && n.whyRelevant == p.whyRelevant
    && n.handoffToDeep == p.handoffToDeep && !n.forcedExitStub
  }

  lemma SourceIsThePrefix(id: string)
    ensures match SourceFromPrefix(id)
            case None => !("arxiv:" <= id) && !("s2:" <= id) && !("web:" <= id)
            case Some(source) => source in {"arxiv", "s2", "web"} && source + ":" <= id
  {
  }

  ghost predicate Noted(notes: seq<Note>, id: string) {
    exists k :: 0 <= k < |notes| && notes[k].paperId == id
  }

  /** What it writes to the notes: the candidates in order, or one stub per id seen, in
      any order. */
  ghost predicate NotesFor(o: Outcome, notes: seq<Note>) {
    match o.output
    case Some(out) =>
      |notes| == |out.candidatePapers| && forall i :: 0 <= i < |notes| ==> IsNoteOf(notes[i], out.candidatePapers[i])
    case None => StubsOf(o.seen, notes)
  }

  method RecordHandoff(queue: seq<string>, papers: seq<CandidatePaper>) returns (r: seq<string>)
    ensures r == queue + FlaggedAdds(papers, queue, MAX_HANDOFF)
  {
    r := queue;
    var count := 0;
    for i := 0 to |papers|
      invariant count <= MAX_HANDOFF
      invariant r + FlaggedAdds(papers[i..], r, MAX_HANDOFF - count) == queue + FlaggedAdds(papers, queue, MAX_HANDOFF)
    {
      var p := papers[i];
      assert papers[i..][0] == p && papers[i..][1..] == papers[i + 1..];
      if p.handoffToDeep && p.paperId !in r && count < MAX_HANDOFF {
        assert r + ([p.paperId] + FlaggedAdds(papers[i + 1..], r + [p.paperId], MAX_HANDOFF - count - 1))
            == r + [p.paperId] + FlaggedAdds(papers[i + 1..], r + [p.paperId], MAX_HANDOFF - count - 1);
        r := r + [p.paperId];
        count := count + 1;
      }
    }
  }

  method RecordCapped(queue: seq<string>, ids: seq<string>) returns (r: seq<string>)
    ensures r == queue + CappedAdds(ids, queue)
  {
    r := queue;
    for i := 0 to |ids|
      invariant r + CappedAdds(ids[i..], r) == queue + CappedAdds(ids, queue)
    {
      assert ids[i..][0] == ids[i] && ids[i..][1..] == ids[i + 1..];
      if ids[i] !in r {
        Regroup(r, ids[i], CappedAdds(ids[i + 1..], r + [ids[i]]));
        r := r + [ids[i]];
      }
    }
  }

  /** One stub for each of the ids, in any order. */
  ghost predicate StubsOf(ids: set<string>, stubs: seq<Note>) {
    && (forall i :: 0 <= i < |stubs| ==> stubs[i].paperId in ids && IsStub(stubs[i]))
    && (forall i, j :: 0 <= i < j < |stubs| ==> stubs[i].paperId != stubs[j].paperId)
    && (forall id :: id in ids ==> Noted(stubs, id))
  }

  lemma StubAdded(ids: set<string>, stubs: seq<Note>, id: string, stub: Note)
    requires StubsOf(ids, stubs) && id !in ids && stub.paperId == id && IsStub(stub)
    ensures StubsOf(ids + {id}, stubs + [stub])
  {
    hide IsStub;
    var all := stubs + [stub];
    forall x | x in ids + {id} ensures Noted(all, x) {
      if x == id {
        assert all[|stubs|].paperId == x;
      } else {
        assert Noted(stubs, x);
        var i :| 0 <= i < |stubs| && stubs[i].paperId == x;
        assert all[i].paperId == x;
      }
    }
  }

  /** Stubs for all ids seen, in the set's traversal order, or the id without a known
      prefix that raises the ValueError. */
  method WriteStubs(o: Outcome) returns (notes: Result<seq<Note>, string>)
    requires o.output.None?
    ensures notes.Ok? ==> NotesFor(o, notes.value)
    ensures notes.Err? ==> notes.error in o.seen && SourceFromPrefix(notes.error).None?
  {
    var stubs: seq<Note> := [];
    var left := o.seen;
    while left != {}
      invariant left <= o.seen && StubsOf(o.seen - left, stubs)
      decreases |left|
    {
      hide StubsOf;
      var id :| id in left;
      var source := SourceFromPrefix(id);
      if source.None? { return Err(id); }
      StubAdded(o.seen - left, stubs, id, StubFor(id, source.value));
      assert o.seen - left + {id} == o.seen - (left - {id});
      left := left - {id};
      stubs := stubs + [StubFor(id, source.value)];
    }
    assert o.seen - {} == o.seen;
    notes := Ok(stubs);
  }

  /** A section's notes and the queue after it, or the id the ValueError names. */
  method RecordSection(o: Outcome, queue: seq<string>, ascending: seq<string>)
    returns (notes: Result<seq<Note>, string>, after: seq<string>)
    ensures notes.Ok? ==> NotesFor(o, notes.value) && after == QueueAfter(queue, o, ascending)
    ensures notes.Err? ==> o.output.None? && notes.error in o.seen && SourceFromPrefix(notes.error).None?
  {
    match o.output {
      case Some(out) =>
        notes := Ok(seq(|out.candidatePapers|,
                        k requires 0 <= k < |out.candidatePapers| => NoteOf(out.candidatePapers[k])));
        after := RecordHandoff(queue, out.candidatePapers);
      case None =>
        notes := WriteStubs(o);
        after := queue;
        if notes.Ok? { after := RecordCapped(queue, Capped(ascending)); }
    }
  }

  // ---- The node -----------------------------------------------------------

  datatype WideResult =
    | WideDone(notes: map<string, seq<Note>>, queue: seq<string>, category: Option<ErrorCategory>)
    | WideRaised(cause: WideFailure)

  /** What ends the node without a state: no outline, an exception of the model, or a
      paper id without a known prefix in a forced exit. */
  datatype WideFailure = NoOutline | ModelRaised(exc: Exc) | UnknownPrefix(id: string)

  /** One section's part in the run: its conversation and outcome, its notes, and the ids
      seen in order. */
  datatype Step = Step(turns: seq<Turn>, outcome: Outcome, notes: seq<Note>, ascending: seq<string>)

  function QueueAll(queue: seq<string>, steps: seq<Step>): seq<string> {
    if steps == [] then queue
    else QueueAfter(QueueAll(queue, steps[..|steps| - 1]), steps[|steps| - 1].outcome, steps[|steps| - 1].ascending)
  }

  function NotesAll(notes: map<string, seq<Note>>, outline: seq<PlannerSection>, steps: seq<Step>)
    : map<string, seq<Note>>
    requires |steps| <= |outline|
  {
    if steps == [] then notes
    else
      var n := |steps| - 1;
      NotesAll(notes, outline, steps[..n])[outline[n].sectionId := steps[n].notes]
  }

  function LastCategory(steps: seq<Step>): Option<ErrorCategory> {
    if steps == [] then None
    else if steps[|steps| - 1].outcome.category.Some? then steps[|steps| - 1].outcome.category
    else LastCategory(steps[..|steps| - 1])
  }

  ghost predicate StepOk(section: PlannerSection, s: Step) {
    && Ascending(s.ascending) && Elems(s.ascending) == s.outcome.seen
    && NotesFor(s.outcome, s.notes)
    && (s.outcome.output.Some? <==> s.outcome.category.None?)
    && (s.outcome.output.Some? ==> s.outcome.output.value.sectionId == section.sectionId)
  }

  /** What the node starts from: its first invocation is number `first`, and it meets
      the tools as `scene`. */
  datatype Survey = Survey(kit: Kit, template: PlannerSection -> string, outline: seq<PlannerSection>, runId: string,
                           script: nat -> Reply, first: nat, scene: Scene)

  ghost function InvokedBy(first: nat, steps: seq<Step>): nat {
    if steps == [] then first else InvokedBy(first, steps[..|steps| - 1]) + |steps[|steps| - 1].turns|
  }

  ghost function SceneAfterSteps(kit: Kit, runId: string, scene: Scene, steps: seq<Step>): Scene {
    if steps == [] then scene
    else SceneAfterTurns(kit, runId, SceneAfterSteps(kit, runId, scene, steps[..|steps| - 1]), steps[|steps| - 1].turns)
  }

  /** The conversation that comes after those done. */
  ghost function NextTalk(s: Survey, done: seq<Step>): Talk
    requires |done| < |s.outline|
  {
    var section := s.outline[|done|];
    Talk(s.kit, s.runId, section.sectionId, s.template(section), s.script,
         InvokedBy(s.first, done), SceneAfterSteps(s.kit, s.runId, s.scene, done))
  }

  /** The outcome is the one this conversation leads to. */
  ghost predicate Told(talk: Talk, prompts: seq<seq<Message>>, step: Step) {
    && Conversation(talk, prompts, step.turns)
    && step.outcome.seen == Seen(step.turns) && EndsWith(talk.kit, talk.sectionId, step.turns, step.outcome)
  }

  /** The sections' conversations took the model's invocations from `first` on, and the
      tools from `scene` on, one section after the other. */
  ghost predicate AllTold(s: Survey, prompts: seq<seq<Message>>, steps: seq<Step>) {
    && |steps| <= |s.outline| && InvokedBy(s.first, steps) <= |prompts|
    && forall i :: 0 <= i < |steps| ==> Told(NextTalk(s, steps[..i]), prompts, steps[i])
  }

  lemma NothingTold(s: Survey, prompts: seq<seq<Message>>)
    requires s.first == |prompts|
    ensures AllTold(s, prompts, []) && InvokedBy(s.first, []) == s.first
            && SceneAfterSteps(s.kit, s.runId, s.scene, []) == s.scene
  {
  }

  lemma ToldStays(talk: Talk, prompts: seq<seq<Message>>, more: seq<seq<Message>>, step: Step)
    requires Told(talk, prompts, step) && prompts <= more
    ensures Told(talk, more, step)
  {
    hide Conversation, EndsWith, Seen;
    ConversationKeepsItsPrompts(talk, prompts, more, step.turns);
    ConversationIsSized(talk, prompts, step.turns);
  }

  lemma ToldByMore(s: Survey, prompts: seq<seq<Message>>, more: seq<seq<Message>>, steps: seq<Step>)
    requires AllTold(s, prompts, steps) && prompts <= more
    ensures AllTold(s, more, steps)
  {
    hide Told, NextTalk, InvokedBy;
    forall i | 0 <= i < |steps| ensures Told(NextTalk(s, steps[..i]), more, steps[i]) {
      ToldStays(NextTalk(s, steps[..i]), prompts, more, steps[i]);
    }
  }

  lemma TotalsGrow(s: Survey, steps: seq<Step>, step: Step)
    ensures InvokedBy(s.first, steps + [step]) == InvokedBy(s.first, steps) + |step.turns|
    ensures SceneAfterSteps(s.kit, s.runId, s.scene, steps + [step])
         == SceneAfterTurns(s.kit, s.runId, SceneAfterSteps(s.kit, s.runId, s.scene, steps), step.turns)
  {
    hide SceneAfterTurns;
    assert (steps + [step])[..|steps|] == steps;
  }

  lemma TellOneMore(s: Survey, prompts: seq<seq<Message>>, more: seq<seq<Message>>, steps: seq<Step>, step: Step)
    requires AllTold(s, prompts, steps) && |steps| < |s.outline| && prompts <= more
    requires InvokedBy(s.first, steps) + |step.turns| <= |more|
    requires Told(NextTalk(s, steps), more, step)
    ensures AllTold(s, more, steps + [step])
    ensures InvokedBy(s.first, steps + [step]) == InvokedBy(s.first, steps) + |step.turns|
    ensures SceneAfterSteps(s.kit, s.runId, s.scene, steps + [step])
         == SceneAfterTurns(s.kit, s.runId, SceneAfterSteps(s.kit, s.runId, s.scene, steps), step.turns)
  {
    hide Told, NextTalk, InvokedBy, SceneAfterSteps;
    var n, all := |steps|, steps + [step];
    assert all[..n] == steps;
    TotalsGrow(s, steps, step);
    forall i | 0 <= i < |all| ensures Told(NextTalk(s, all[..i]), more, all[i]) {
      if i < n {
        assert all[..i] == steps[..i];
        ToldStays(NextTalk(s, steps[..i]), prompts, more, steps[i]);
      }
    }
  }

  /** What ended the node: no outline; an exception of the model in the middle of a
      conversation; or a forced exit of a conversation that had seen an id without a
      known prefix. */
  ghost predicate FailsBy(s: Survey, prompts: seq<seq<Message>>, steps: seq<Step>, cut: seq<Turn>, f: WideFailure) {
    match f
    case NoOutline => s.outline == [] && steps == [] && |prompts| == s.first
    case ModelRaised(exc) => |steps| < |s.outline| && CutShort(NextTalk(s, steps), prompts, cut, exc)
    case UnknownPrefix(id) =>
      && |steps| < |s.outline| && SourceFromPrefix(id).None? && HasReturned(cut, id)
      && |prompts| == InvokedBy(s.first, steps) + |cut|
      && exists o: Outcome :: o.output.None? && Told(NextTalk(s, steps), prompts, Step(cut, o, [], []))
  }

  /** One section's turn: its step, or its unfinished conversation and what failed. */
  method RunSection(ghost s: Survey, ghost done: seq<Step>, kit: Kit, template: PlannerSection -> string,
                    section: PlannerSection, queue: seq<string>, runId: string, llm: LlmClient, budget: BudgetManager,
                    table: Table, world: World)
    returns (r: Result<(Outcome, seq<Note>, seq<string>), WideFailure>, ghost turns: seq<Turn>,
             ghost ascending: seq<string>)
    requires |done| < |s.outline| && section == s.outline[|done|]
    requires s.kit == kit && s.template == template && s.runId == runId && s.script == llm.script
    requires InvokedBy(s.first, done) == |llm.prompts|
    requires SceneAfterSteps(kit, runId, s.scene, done) == SceneOf(table, world)
    modifies llm, budget, table, world
    ensures old(llm.prompts) <= llm.prompts && |llm.prompts| <= |old(llm.prompts)| + 8
    ensures SceneOf(table, world) == SceneAfterTurns(kit, runId, SceneAfterSteps(kit, runId, s.scene, done), turns)
    ensures match r
            case Ok((o, notes, after)) =>
              && |llm.prompts| == |old(llm.prompts)| + |turns|
              && Told(NextTalk(s, done), llm.prompts, Step(turns, o, notes, ascending))
              && StepOk(section, Step(turns, o, notes, ascending)) && after == QueueAfter(queue, o, ascending)
            case Err(f) => FailsBy(s, llm.prompts, done, turns, f) && f != NoOutline
  {
    hide NotesFor, QueueAfter, Ascending, EndsWith, Conversation, Sized, Seen, InvokedBy, SceneAfterSteps,
         SceneAfterTurns, CutShort, HasReturned, SourceFromPrefix;
    ascending := [];
    ghost var talk := NextTalk(s, done);
    var reacted;
    reacted, turns := ReactOneSection(kit, section, template(section), runId, llm, budget, table, world);
    if reacted.Err? {
      CutIsShort(talk, llm.prompts, turns, reacted.error);
      return Err(ModelRaised(reacted.error)), turns, [];
    }
    var o := reacted.value;
    ConversationIsSized(talk, llm.prompts, turns);
    EndShape(kit, section.sectionId, turns, o);
    var sorted := SortSet(o.seen);
    ascending := sorted;
    var notes, after := RecordSection(o, queue, sorted);
    if notes.Err? {
      SeenWasReturned(turns, notes.error);
      assert Told(talk, llm.prompts, Step(turns, o, [], []));
      return Err(UnknownPrefix(notes.error)), turns, ascending;
    }
    r := Ok((o, notes.value, after));
  }

  lemma CutIsShort(talk: Talk, prompts: seq<seq<Message>>, cut: seq<Turn>, exc: Exc)
    requires CutShort(talk, prompts, cut, exc)
    ensures |prompts| <= talk.start + 8
  {
    hide Conversation, Transcript, InputTokens, Complete;
  }

  /** Run over the whole outline. Without an exception the conversations account for
      every invocation of the model; with one, `cut` is the conversation it ended. */
  method Run(kit: Kit, template: PlannerSection -> string, outline: seq<PlannerSection>, notes: map<string, seq<Note>>,
             queue: seq<string>, runId: string, llm: LlmClient, budget: BudgetManager, table: Table, world: World)
    returns (r: WideResult, ghost steps: seq<Step>, ghost cut: seq<Turn>)
    modifies llm, budget, table, world
    ensures r == WideRaised(NoOutline) <==> outline == []
    ensures old(llm.prompts) <= llm.prompts && |llm.prompts| <= |old(llm.prompts)| + 8 * |outline|
    ensures |steps| <= |outline| && forall i :: 0 <= i < |steps| ==> StepOk(outline[i], steps[i])
    ensures var s := Survey(kit, template, outline, runId, llm.script, |old(llm.prompts)|, old(SceneOf(table, world)));
            && AllTold(s, llm.prompts, steps)
            && SceneOf(table, world) == SceneAfterTurns(kit, runId, SceneAfterSteps(kit, runId, s.scene, steps), cut)
            && match r
               case WideDone(newNotes, newQueue, category) =>
                 && |steps| == |outline| && cut == [] && InvokedBy(s.first, steps) == |llm.prompts|
                 && newNotes == NotesAll(notes, outline, steps) && newQueue == QueueAll(queue, steps)
                 && category == LastCategory(steps)
               case WideRaised(f) => FailsBy(s, llm.prompts, steps, cut, f)
  {
    hide StepOk, QueueAfter, QueueAll, NotesAll, LastCategory, AllTold, Told, InvokedBy, SceneAfterSteps,
         SceneAfterTurns, FailsBy, NextTalk;
    ghost var s := Survey(kit, template, outline, runId, llm.script, |llm.prompts|, SceneOf(table, world));
    steps, cut := [], [];
    NothingTold(s, llm.prompts);
    NoSteps(queue, notes, outline);
    NoTurns(kit, runId, SceneOf(table, world));
    if outline == [] {
      NothingToDo(s, llm.prompts);
      return WideRaised(NoOutline), steps, cut;
    }
    var newNotes, newQueue, lastCategory := notes, queue, None;
    for i := 0 to |outline|
      invariant |steps| == i && (forall k :: 0 <= k < i ==> StepOk(outline[k], steps[k]))
      invariant AllTold(s, llm.prompts, steps) && InvokedBy(s.first, steps) == |llm.prompts|
      invariant SceneOf(table, world) == SceneAfterSteps(kit, runId, s.scene, steps)
      invariant newQueue == QueueAll(queue, steps) && newNotes == NotesAll(notes, outline, steps)
      invariant lastCategory == LastCategory(steps)
      invariant old(llm.prompts) <= llm.prompts && |llm.prompts| <= |old(llm.prompts)| + 8 * i
    {
      var section := outline[i];
      ghost var before := llm.prompts;
      var done, turns, ascending :=
          RunSection(s, steps, kit, template, section, newQueue, runId, llm, budget, table, world);
      if done.Err? {
        ToldByMore(s, before, llm.prompts, steps);
        return WideRaised(done.error), steps, turns;
      }
      var (o, sectionNotes, queueAfter) := done.value;
      ghost var step := Step(turns, o, sectionNotes, ascending);
      StepAppended(queue, notes, outline, steps, step);
      TellOneMore(s, before, llm.prompts, steps, step);
      steps := steps + [step];
      newNotes := newNotes[section.sectionId := sectionNotes];
      newQueue := queueAfter;
      if o.category.Some? { lastCategory := o.category; }
    }
    NoTurns(kit, runId, SceneOf(table, world));
    r := WideDone(newNotes, newQueue, lastCategory);
  }

  lemma NoTurns(kit: Kit, runId: string, scene: Scene)
    ensures SceneAfterTurns(kit, runId, scene, []) == scene
  {
  }

  lemma NothingToDo(s: Survey, prompts: seq<seq<Message>>)
    requires s.outline == [] && |prompts| == s.first
    ensures FailsBy(s, prompts, [], [], NoOutline)
  {
  }

  lemma NoSteps(queue: seq<string>, notes: map<string, seq<Note>>, outline: seq<PlannerSection>)
    ensures QueueAll(queue, []) == queue && NotesAll(notes, outline, []) == notes && LastCategory([]) == None
  {
  }

  lemma StepAppended(queue: seq<string>, notes: map<string, seq<Note>>, outline: seq<PlannerSection>,
                     steps: seq<Step>, s: Step)
    requires |steps| < |outline|
    ensures var all := steps + [s];
            && QueueAll(queue, all) == QueueAfter(QueueAll(queue, steps), s.outcome, s.ascending)
            && NotesAll(notes, outline, all) == NotesAll(notes, outline, steps)[outline[|steps|].sectionId := s.notes]
            && LastCategory(all) == if s.outcome.category.Some? then s.outcome.category else LastCategory(steps)
  {
    hide QueueAfter;
    assert (steps + [s])[..|steps|] == steps;
  }

  // ---- What the hand-off guarantees ---------------------------------------

  lemma {:induction false} FlaggedAddsAreFirst(papers: seq<CandidatePaper>, queue: seq<string>, room: nat)
    ensures var adds, unqueued := FlaggedAdds(papers, queue, room), FreshFlagged(papers, queue);
            adds == if |unqueued| <= room then unqueued else unqueued[..room]
    decreases |papers|
  {
    if papers != [] {
      var p := papers[0];
      if p.handoffToDeep && p.paperId !in queue {
        if room > 0 {
          FlaggedAddsAreFirst(papers[1..], queue + [p.paperId], room - 1);
        }
      } else {
        FlaggedAddsAreFirst(papers[1..], queue, room);
      }
    }
    NoRoomNoAdds(papers, queue);
  }

  lemma {:induction false} NoRoomNoAdds(papers: seq<CandidatePaper>, queue: seq<string>)
    ensures FlaggedAdds(papers, queue, 0) == []
  {
  }

  lemma {:induction false} FlaggedAddIsFlagged(papers: seq<CandidatePaper>, queue: seq<string>, room: nat, id: string)
    requires id in FlaggedAdds(papers, queue, room)
    ensures exists p :: p in papers && p.handoffToDeep && p.paperId == id
    decreases |papers|
  {
    var p := papers[0];
    if !(p.handoffToDeep && p.paperId == id) {
      if p.handoffToDeep && p.paperId !in queue && room > 0 {
        FlaggedAddIsFlagged(papers[1..], queue + [p.paperId], room - 1, id);
      } else {
        FlaggedAddIsFlagged(papers[1..], queue, room, id);
      }
      var q :| q in papers[1..] && q.handoffToDeep && q.paperId == id;
      assert q in papers;
    } else {
      assert p in papers;
    }
  }

  lemma Regroup(queue: seq<string>, id: string, adds: seq<string>)
    ensures queue + ([id] + adds) == queue + [id] + adds
  {
  }

  lemma OneMoreIsDistinct(queue: seq<string>, id: string)
    requires NoDup(queue) && id !in queue
    ensures NoDup(queue + [id])
  {
  }

  lemma {:induction false} FlaggedAddsKeepDistinct(papers: seq<CandidatePaper>, queue: seq<string>, room: nat)
    requires NoDup(queue)
    ensures NoDup(queue + FlaggedAdds(papers, queue, room))
    decreases |papers|
  {
    hide NoDup;
    if papers != [] {
      var p := papers[0];
      if p.handoffToDeep && p.paperId !in queue && room > 0 {
        OneMoreIsDistinct(queue, p.paperId);
        FlaggedAddsKeepDistinct(papers[1..], queue + [p.paperId], room - 1);
        Regroup(queue, p.paperId, FlaggedAdds(papers[1..], queue + [p.paperId], room - 1));
      } else {
        FlaggedAddsKeepDistinct(papers[1..], queue, room);
      }
    } else {
      assert queue + [] == queue;
    }
  }

  lemma {:induction false} CappedAddIsListed(ids: seq<string>, queue: seq<string>, id: string)
    requires id in CappedAdds(ids, queue)
    ensures id in ids
    decreases |ids|
  {
    if id != ids[0] {
      CappedAddIsListed(ids[1..], if ids[0] !in queue then queue + [ids[0]] else queue, id);
    }
  }

  lemma {:induction false} CappedAddsKeepDistinct(ids: seq<string>, queue: seq<string>)
    requires NoDup(queue)
    ensures NoDup(queue + CappedAdds(ids, queue))
    decreases |ids|
  {
    hide NoDup;
    if ids == [] {
      assert queue + [] == queue;
    } else if ids[0] !in queue {
      OneMoreIsDistinct(queue, ids[0]);
      CappedAddsKeepDistinct(ids[1..], queue + [ids[0]]);
      Regroup(queue, ids[0], CappedAdds(ids[1..], queue + [ids[0]]));
    } else {
      CappedAddsKeepDistinct(ids[1..], queue);
    }
  }

  lemma {:induction false} CappedAddsMissNone(ids: seq<string>, queue: seq<string>, id: string)
    requires id in ids
    ensures id in queue + CappedAdds(ids, queue)
    decreases |ids|
  {
    if ids[0] !in queue {
      assert queue + CappedAdds(ids, queue) == queue + [ids[0]] + CappedAdds(ids[1..], queue + [ids[0]]);
      if id != ids[0] { CappedAddsMissNone(ids[1..], queue + [ids[0]], id); }
    } else if id != ids[0] {
      CappedAddsMissNone(ids[1..], queue, id);
    }
  }

  /** Fewer than `k` of the ids seen come before it. */
  ghost predicate AmongSmallest(id: string, seen: set<string>, k: nat) {
    id in seen && |set x | x in seen && Before(x, id)| < k
  }

  lemma CappedIsSmallest(ascending: seq<string>, seen: set<string>, i: nat)
    requires Ascending(ascending) && Elems(ascending) == seen && i < |Capped(ascending)|
    ensures AmongSmallest(Capped(ascending)[i], seen, 3)
  {
    var id := ascending[i];
    var smaller := set x | x in seen && Before(x, id);
    forall x | x in smaller ensures x in Elems(ascending[..i]) {
      assert x in Elems(ascending);
      var j :| 0 <= j < |ascending| && ascending[j] == x;
      BeforeIsTotal(x, id);
      assert j < i;
      assert ascending[..i][j] == x;
    }
    ElemsNoLarger(ascending[..i]);
    SubsetIsNoLarger(smaller, Elems(ascending[..i]));
    assert id in Elems(ascending);
  }

  /** The three smallest ids seen are the first three of the ascending list. */
  lemma SmallestIsCapped(ascending: seq<string>, seen: set<string>, x: string)
    requires Ascending(ascending) && Elems(ascending) == seen && AmongSmallest(x, seen, 3)
    ensures x in Capped(ascending)
  {
    hide Before;
    assert x in Elems(ascending);
    var j :| 0 <= j < |ascending| && ascending[j] == x;
    var smaller := set y | y in seen && Before(y, x);
    forall y | y in Elems(ascending[..j]) ensures y in smaller {
      var i :| 0 <= i < j && ascending[..j][i] == y;
      assert ascending[i] == y && ascending[i] in Elems(ascending);
    }
    AscendingCount(ascending[..j]);
    SubsetIsNoLarger(Elems(ascending[..j]), smaller);
    assert j < 3;
    assert Capped(ascending)[j] == x;
  }

  lemma {:induction false} AscendingCount(s: seq<string>)
    requires Ascending(s)
    ensures |Elems(s)| == |s|
  {
    hide Before;
    if s != [] {
      var n := |s| - 1;
      AscendingCount(s[..n]);
      assert s[n] !in s[..n] by {
        forall i | 0 <= i < n ensures s[i] != s[n] { BeforeIsIrreflexive(s[n]); }
      }
      assert s == s[..n] + [s[n]];
      assert Elems(s) == Elems(s[..n]) + {s[n]};
    }
  }

  lemma {:induction false} ElemsNoLarger(s: seq<string>)
    ensures |Elems(s)| <= |s|
  {
    if s != [] {
      ElemsNoLarger(s[1..]);
      assert s == [s[0]] + s[1..];
      assert Elems(s) == {s[0]} + Elems(s[1..]);
    }
  }

  lemma {:induction false} SubsetIsNoLarger(a: set<string>, b: set<string>)
    requires a <= b
    ensures |a| <= |b|
  {
    assert b == a + (b - a);
  }

  /** One section: the old queue is a prefix of the new one, no id is repeated, at most
      three are added. A completed section adds the first three flagged ids not queued
      yet, in order; a forced exit adds only ids among the three smallest seen and leaves
      none of those out of the queue. Every id added is in the section's notes. */
  lemma SectionHandoff(section: PlannerSection, queue: seq<string>, s: Step)
    requires StepOk(section, s)
    ensures var after := QueueAfter(queue, s.outcome, s.ascending);
            && queue <= after && |after| <= |queue| + 3
            && (NoDup(queue) ==> NoDup(after))
            && (forall i :: |queue| <= i < |after| ==> Noted(s.notes, after[i]))
            && match s.outcome.output
               case Some(out) =>
                 var unqueued := FreshFlagged(out.candidatePapers, queue);
                 after[|queue|..] == if |unqueued| <= 3 then unqueued else unqueued[..3]
               case None =>
                 && (forall i :: |queue| <= i < |after| ==> AmongSmallest(after[i], s.outcome.seen, 3))
                 && (forall x :: AmongSmallest(x, s.outcome.seen, 3) ==> x in after)
  {
    hide Ascending, AmongSmallest, FlaggedAdds, CappedAdds, FreshFlagged, Noted, NoDup, StubsOf;
    var after := QueueAfter(queue, s.outcome, s.ascending);
    match s.outcome.output {
      case Some(out) =>
        var adds := FlaggedAdds(out.candidatePapers, queue, MAX_HANDOFF);
        FlaggedAddsAreFirst(out.candidatePapers, queue, MAX_HANDOFF);
        if NoDup(queue) { FlaggedAddsKeepDistinct(out.candidatePapers, queue, MAX_HANDOFF); }
        assert after[|queue|..] == adds;
        forall i | |queue| <= i < |after| ensures Noted(s.notes, after[i]) {
          assert after[i] == adds[i - |queue|];
          FlaggedIsNoted(s.outcome, s.notes, queue, after[i]);
        }
      case None =>
        var ids := Capped(s.ascending);
        var adds := CappedAdds(ids, queue);
        if NoDup(queue) { CappedAddsKeepDistinct(ids, queue); }
        assert after[|queue|..] == adds;
        forall x | AmongSmallest(x, s.outcome.seen, 3) ensures x in after {
          SmallestIsCapped(s.ascending, s.outcome.seen, x);
          CappedAddsMissNone(ids, queue, x);
        }
        forall i | |queue| <= i < |after|
          ensures AmongSmallest(after[i], s.outcome.seen, 3)
          ensures Noted(s.notes, after[i])
        {
          assert after[i] == adds[i - |queue|];
          CappedIsNoted(s.outcome, s.notes, s.ascending, queue, after[i]);
        }
    }
  }

  lemma FlaggedIsNoted(o: Outcome, notes: seq<Note>, queue: seq<string>, id: string)
    requires o.output.Some? && NotesFor(o, notes)
    requires id in FlaggedAdds(o.output.value.candidatePapers, queue, MAX_HANDOFF)
    ensures Noted(notes, id)
  {
    hide FlaggedAdds;
    var papers := o.output.value.candidatePapers;
    FlaggedAddIsFlagged(papers, queue, MAX_HANDOFF, id);
    var p :| p in papers && p.handoffToDeep && p.paperId == id;
    var k :| 0 <= k < |papers| && papers[k] == p;
    assert IsNoteOf(notes[k], papers[k]);
  }

  lemma CappedIsNoted(o: Outcome, notes: seq<Note>, ascending: seq<string>, queue: seq<string>, id: string)
    requires o.output.None? && NotesFor(o, notes) && Ascending(ascending) && Elems(ascending) == o.seen
    requires id in CappedAdds(Capped(ascending), queue)
    ensures AmongSmallest(id, o.seen, 3) && Noted(notes, id)
  {
    hide Ascending, AmongSmallest, CappedAdds, IsStub, Noted;
    var ids := Capped(ascending);
    CappedAddIsListed(ids, queue, id);
    var j :| 0 <= j < |ids| && ids[j] == id;
    CappedIsSmallest(ascending, o.seen, j);
    assert ascending[j] in Elems(ascending);
  }

  ghost predicate DistinctSections(outline: seq<PlannerSection>) {
    forall i, j :: 0 <= i < j < |outline| ==> outline[i].sectionId != outline[j].sectionId
  }

  lemma {:induction false} NotesKept(notes: map<string, seq<Note>>, outline: seq<PlannerSection>, steps: seq<Step>,
                                     i: nat)
    requires |steps| <= |outline| && i < |steps| && DistinctSections(outline)
    ensures outline[i].sectionId in NotesAll(notes, outline, steps)
    ensures NotesAll(notes, outline, steps)[outline[i].sectionId] == steps[i].notes
  {
    if i < |steps| - 1 { NotesKept(notes, outline, steps[..|steps| - 1], i); }
  }

  ghost predicate InNotes(notes: map<string, seq<Note>>, sectionId: string, id: string) {
    sectionId in notes && Noted(notes[sectionId], id)
  }

  /** Section `i` put the j-th id into the queue, and has it in its final notes. */
  ghost predicate AddedAndNoted(notes: map<string, seq<Note>>, outline: seq<PlannerSection>, queue: seq<string>,
                                steps: seq<Step>, i: nat, j: nat)
    requires i < |steps| <= |outline|
  {
    && |QueueAll(queue, steps[..i])| <= j < |QueueAll(queue, steps[..i + 1])|
    && j < |QueueAll(queue, steps)|
    && InNotes(NotesAll(notes, outline, steps), outline[i].sectionId, QueueAll(queue, steps)[j])
  }

  ghost predicate HandedOver(notes: map<string, seq<Note>>, outline: seq<PlannerSection>, queue: seq<string>,
                             steps: seq<Step>, j: nat)
    requires |steps| <= |outline|
  {
    exists i :: 0 <= i < |steps| && AddedAndNoted(notes, outline, queue, steps, i, j)
  }

  /** The whole node: the queue only grows, by at most three ids per section and without
      repeats, and with distinct section ids every id added is in the final notes of the
      section that added it, where Deep's cross-reference will find it. */
  lemma {:induction false} HandoffReachesDeep(notes: map<string, seq<Note>>, outline: seq<PlannerSection>,
                                              queue: seq<string>, steps: seq<Step>)
    requires |steps| <= |outline| && forall i :: 0 <= i < |steps| ==> StepOk(outline[i], steps[i])
    ensures queue <= QueueAll(queue, steps) && |QueueAll(queue, steps)| <= |queue| + 3 * |steps|
    ensures NoDup(queue) ==> NoDup(QueueAll(queue, steps))
    ensures DistinctSections(outline) ==> forall j :: |queue| <= j < |QueueAll(queue, steps)| ==>
              HandedOver(notes, outline, queue, steps, j)
    decreases |steps|
  {
    hide StepOk, QueueAfter, AddedAndNoted;
    if steps != [] {
      var n := |steps| - 1;
      var before, after := QueueAll(queue, steps[..n]), QueueAll(queue, steps);
      HandoffReachesDeep(notes, outline, queue, steps[..n]);
      SectionHandoff(outline[n], before, steps[n]);
      if DistinctSections(outline) {
        forall j | |queue| <= j < |after|
          ensures HandedOver(notes, outline, queue, steps, j)
        {
          if j < |before| {
            assert HandedOver(notes, outline, queue, steps[..n], j);
            var i :| 0 <= i < n && AddedAndNoted(notes, outline, queue, steps[..n], i, j);
            StillAddedAndNoted(notes, outline, queue, steps, i, j);
          } else {
            LastAddedAndNoted(notes, outline, queue, steps, j);
          }
        }
      }
    }
  }

  lemma StillAddedAndNoted(notes: map<string, seq<Note>>, outline: seq<PlannerSection>, queue: seq<string>,
                           steps: seq<Step>, i: nat, j: nat)
    requires steps != [] && |steps| <= |outline| && i < |steps| - 1 && DistinctSections(outline)
    requires QueueAll(queue, steps[..|steps| - 1]) <= QueueAll(queue, steps)
    requires AddedAndNoted(notes, outline, queue, steps[..|steps| - 1], i, j)
    ensures AddedAndNoted(notes, outline, queue, steps, i, j)
  {
    hide QueueAll;
    var n := |steps| - 1;
    assert steps[..n][..i] == steps[..i] && steps[..n][..i + 1] == steps[..i + 1];
    NotesKept(notes, outline, steps[..n], i);
    NotesKept(notes, outline, steps, i);
  }

  lemma LastAddedAndNoted(notes: map<string, seq<Note>>, outline: seq<PlannerSection>, queue: seq<string>,
                          steps: seq<Step>, j: nat)
    requires steps != [] && |steps| <= |outline| && DistinctSections(outline)
    requires |QueueAll(queue, steps[..|steps| - 1])| <= j < |QueueAll(queue, steps)|
    requires Noted(steps[|steps| - 1].notes, QueueAll(queue, steps)[j])
    ensures AddedAndNoted(notes, outline, queue, steps, |steps| - 1, j)
  {
    hide QueueAll;
    var n := |steps| - 1;
    assert steps[..n + 1] == steps;
    NotesKept(notes, outline, steps, n);
  }
}
