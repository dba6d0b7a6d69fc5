/** Researcher-Deep (agents/researcher_deep.py): cross-reference of the queue with the
    notes, abstract fetch with fallback, one structured call per section, acceptance,
    persistence and the rebuilt queue. */
module Deep {
  import opened Prelude
  import opened Roles
  import opened Errors
  import opened Json
  import opened Schemas
  import opened Budget
  import opened Llm
  import opened StructuredCall
  import opened EvidenceStore
  import opened EvidenceIds
  import opened Wide

  /** What a lookup tool answers for a paper: its abstract, if any, or an exception. */
  datatype Lookup = Found(abstract_: Option<string>) | Raised(exc: Exc)

  /** The lookup tools as they behave at the n-th fetch, the prompt template, the
      structured-output format and model validation. */
  datatype Kit = Kit(lookup: (string, string, nat) -> Lookup, template: (PlannerSection, seq<string>) -> string,
                     format: Format, parse: Json -> Option<DeepOutput>)

  predicate IsWeb(id: string) { "web:" <= id }

  // ---- Abstracts ----------------------------------------------------------

  /** Transient errors of the primary tool: 429, 5xx, or no response at all. */
  predicate IsFallbackable(exc: Exc) {
    exc.category == Some(Provider429) || exc.category == Some(Provider5xx) || exc.transport
  }

  function Present(abstract_: Option<string>): Option<string> {
    if abstract_ == Some("") then None else abstract_
  }

  /** s2_lookup first; arxiv_lookup only for arxiv papers after a transient error; when
      both fail it is the first error that surfaces. */
  function FetchAbstract(kit: Kit, id: string, tick: nat): (r: Result<Option<string>, Exc>)
    ensures IsWeb(id) ==> r == Ok(None)
    ensures r.Err? ==> kit.lookup("s2_lookup", id, tick) == Raised(r.error)
    ensures r.Err? <==> !IsWeb(id) && kit.lookup("s2_lookup", id, tick).Raised?
                        && !("arxiv:" <= id && IsFallbackable(kit.lookup("s2_lookup", id, tick).exc)
                             && kit.lookup("arxiv_lookup", id, tick).Found?)
    ensures r.Ok? && r.value.Some? ==> r.value.value != ""
  {
    if IsWeb(id) then Ok(None)
    else
      match kit.lookup("s2_lookup", id, tick)
      case Found(a) => Ok(Present(a))
      case Raised(e) =>
        if IsFallbackable(e) && "arxiv:" <= id then
          match kit.lookup("arxiv_lookup", id, tick)
          case Found(a) => Ok(Present(a))
          case Raised(_) => Err(e)
        else Err(e)
  }

  /** A 429, a 5xx, or a request that got no response. */
  ghost predicate Transient(exc: Exc) {
    match exc.kind
    case HttpStatus(code) => code == 429 || 500 <= code < 600
    case RequestFailed => true
    case _ => false
  }

  /** What the lookups hold for a paper that is no web page: a text of s2_lookup, or one of
      arxiv_lookup where a transient error of s2_lookup calls for it. */
  ghost predicate FoundText(kit: Kit, id: string, tick: nat, text: string) {
    && !("web:" <= id) && text != ""
    && (|| kit.lookup("s2_lookup", id, tick) == Found(Some(text))
        || ("arxiv:" <= id && kit.lookup("arxiv_lookup", id, tick) == Found(Some(text))
            && exists e :: kit.lookup("s2_lookup", id, tick) == Raised(e) && Transient(e)))
  }

  /** The fetch gives exactly that text, nothing exactly when the paper is a web page or
      the lookup that counts has no text, and otherwise the error of s2_lookup. */
  lemma FetchedTextIsTheLookups(kit: Kit, id: string, tick: nat)
    ensures var r, primary := FetchAbstract(kit, id, tick), kit.lookup("s2_lookup", id, tick);
            && (forall text :: r == Ok(Some(text)) <==> FoundText(kit, id, tick, text))
            && (r.Err? <==> && !("web:" <= id) && primary.Raised?
                            && !("arxiv:" <= id && Transient(primary.exc)
                                 && kit.lookup("arxiv_lookup", id, tick).Found?))
            && (r.Err? ==> r.error == primary.exc)
  {
  }

  /** The section's papers that are queued, in note order. */
  function QueuedPapers(notes: seq<Note>, queue: seq<string>): (r: seq<string>)
    ensures forall x :: x in r <==> x in queue && Noted(notes, x)
  {
    if notes == [] then []
    else
      var rest := QueuedPapers(notes[1..], queue);
      assert forall k :: 0 <= k < |notes[1..]| ==> notes[1..][k] == notes[k + 1];
      assert forall x :: Noted(notes, x) <==> notes[0].paperId == x || Noted(notes[1..], x) by {
        forall x ensures Noted(notes, x) <==> notes[0].paperId == x || Noted(notes[1..], x) {
          if Noted(notes, x) {
            var k :| 0 <= k < |notes| && notes[k].paperId == x;
            if k > 0 { assert notes[1..][k - 1].paperId == x; }
          }
          if Noted(notes[1..], x) {
            var k :| 0 <= k < |notes[1..]| && notes[1..][k].paperId == x;
            assert notes[k + 1].paperId == x;
          }
        }
      }
      if notes[0].paperId in queue then [notes[0].paperId] + rest else rest
  }

  function NoteIds(notes: seq<Note>): seq<string> {
    seq(|notes|, i requires 0 <= i < |notes| => notes[i].paperId)
  }

  /** They are the notes' ids, in order and as often as noted, without those not queued. */
  lemma {:induction false} QueuedPapersKeepOrder(notes: seq<Note>, queue: seq<string>)
    ensures Subsequence(QueuedPapers(notes, queue), NoteIds(notes))
    ensures forall x :: multiset(QueuedPapers(notes, queue))[x] == if x in queue then multiset(NoteIds(notes))[x] else 0
  {
    if notes != [] {
      var id, rest, ids := notes[0].paperId, QueuedPapers(notes[1..], queue), NoteIds(notes[1..]);
      QueuedPapersKeepOrder(notes[1..], queue);
      assert NoteIds(notes) == [id] + ids;
      SubsequenceWithHead(rest, ids, id);
      forall x
        ensures multiset(QueuedPapers(notes, queue))[x] == if x in queue then multiset(NoteIds(notes))[x] else 0
      {
        assert multiset(NoteIds(notes))[x] == multiset(ids)[x] + if x == id then 1 else 0;
      }
    }
  }

  lemma {:induction false} SubsequenceWithHead(s: seq<string>, t: seq<string>, x: string)
    requires Subsequence(s, t)
    ensures Subsequence(s, [x] + t) && Subsequence([x] + s, [x] + t)
    decreases |t|
  {
    if s == [] {
      EmptyIsSubsequence([x] + t);
      HeadAlone(x, t);
      assert [x] + s == [x];
    } else {
      var n, m := |s| - 1, |t| - 1;
      assert ([x] + t)[..m + 1] == [x] + t[..m] && ([x] + s)[..n + 1] == [x] + s[..n];
      if s[n] == t[m] {
        SubsequenceWithHead(s[..n], t[..m], x);
      } else {
        SubsequenceWithHead(s, t[..m], x);
      }
    }
  }

  lemma EmptyIsSubsequence(t: seq<string>)
    ensures Subsequence([], t)
  {
  }

  lemma {:induction false} HeadAlone(x: string, t: seq<string>)
    ensures Subsequence([x], [x] + t)
    decreases |t|
  {
    if t == [] {
      assert [x] + t == [x];
      assert [x][..0] == [];
    } else {
      var m := |t| - 1;
      assert ([x] + t)[..m + 1] == [x] + t[..m];
      if t[m] == x {
        assert [x][..0] == [];
      } else {
        HeadAlone(x, t[..m]);
      }
    }
  }

  /** The abstracts dict, its keys in insertion order. */
  datatype Abstracts = Abstracts(order: seq<string>, texts: map<string, string>)

  /** The papers fetched in order, from the `start`-th fetch on, up to the first exception. */
  function FetchAll(kit: Kit, ids: seq<string>, start: nat): Result<Abstracts, Exc> {
    if ids == [] then Ok(Abstracts([], map[]))
    else
      var n := |ids| - 1;
      match FetchAll(kit, ids[..n], start)
      case Err(e) => Err(e)
      case Ok(a) =>
        match FetchAbstract(kit, ids[n], start + n)
        case Err(e) => Err(e)
        case Ok(None) => Ok(a)
        case Ok(Some(text)) => Ok(Abstracts(if ids[n] in a.texts then a.order else a.order + [ids[n]],
                                            a.texts[ids[n] := text]))
  }

  method FetchAbstracts(kit: Kit, ids: seq<string>, start: nat) returns (r: Result<Abstracts, Exc>)
    ensures r == FetchAll(kit, ids, start)
  {
    hide FetchAbstract;
    var order, abstracts := [], map[];
    for i := 0 to |ids|
      invariant FetchAll(kit, ids[..i], start) == Ok(Abstracts(order, abstracts))
    {
      assert ids[..i + 1][..i] == ids[..i];
      var fetched := FetchAbstract(kit, ids[i], start + i);
      if fetched.Err? {
        FirstErrorStops(kit, ids, start, i + 1);
        return Err(fetched.error);
      }
      if fetched.value.Some? {
        if ids[i] !in abstracts { order := order + [ids[i]]; }
        abstracts := abstracts[ids[i] := fetched.value.value];
      }
    }
    assert ids[..|ids|] == ids;
    r := Ok(Abstracts(order, abstracts));
  }

  lemma {:induction false} FirstErrorStops(kit: Kit, ids: seq<string>, start: nat, k: nat)
    requires k <= |ids| && FetchAll(kit, ids[..k], start).Err?
    ensures FetchAll(kit, ids, start) == FetchAll(kit, ids[..k], start)
    decreases |ids|
  {
    hide FetchAbstract;
    if k == |ids| {
      assert ids[..k] == ids;
    } else {
      assert ids[..|ids| - 1][..k] == ids[..k];
      FirstErrorStops(kit, ids[..|ids| - 1], start, k);
    }
  }

  /** One of the fetches of `x` gave a text. */
  ghost predicate HadAbstract(kit: Kit, ids: seq<string>, start: nat, x: string) {
    exists j :: 0 <= j < |ids| && ids[j] == x && Readable(kit, x, start + j)
  }

  ghost predicate Readable(kit: Kit, id: string, tick: nat) {
    exists text :: FoundText(kit, id, tick, text)
  }

  lemma ReadableIsFetched(kit: Kit, id: string, tick: nat)
    ensures Readable(kit, id, tick) <==> FetchAbstract(kit, id, tick).Ok? && FetchAbstract(kit, id, tick).value.Some?
  {
    hide FetchAbstract, FoundText;
    FetchedTextIsTheLookups(kit, id, tick);
    var r := FetchAbstract(kit, id, tick);
    if r.Ok? && r.value.Some? { assert FoundText(kit, id, tick, r.value.value); }
  }

  /** The dict's text for a paper is what the lookups gave at one of its fetches. */
  ghost predicate TextOf(kit: Kit, ids: seq<string>, start: nat, x: string, text: string) {
    exists j :: 0 <= j < |ids| && ids[j] == x && FoundText(kit, x, start + j, text)
  }

  /** The dict's keys are listed once each, and are exactly the papers asked for that had
      an abstract; web pages are never among them. */
  lemma {:induction false} FetchedPapers(kit: Kit, ids: seq<string>, start: nat)
    requires FetchAll(kit, ids, start).Ok?
    ensures var a := FetchAll(kit, ids, start).value;
            && NoDup(a.order) && Elems(a.order) == a.texts.Keys
            && (forall x :: x in a.texts <==> HadAbstract(kit, ids, start, x))
            && (forall x :: x in a.texts ==> x in ids && !("web:" <= x) && a.texts[x] != "")
  {
    hide FetchAbstract, Readable;
    if ids != [] {
      var n := |ids| - 1;
      FetchedPapers(kit, ids[..n], start);
      var before, after := FetchAll(kit, ids[..n], start).value, FetchAll(kit, ids, start).value;
      if ids[n] !in before.texts { assert ids[n] !in Elems(before.order); }
      ReadableIsFetched(kit, ids[n], start + n);
      if Readable(kit, ids[n], start + n) { FetchedIsReal(kit, ids[n], start + n); }
      forall x
        ensures HadAbstract(kit, ids, start, x) <==>
                HadAbstract(kit, ids[..n], start, x) || (x == ids[n] && Readable(kit, x, start + n))
      {
        HadAbstractSplits(kit, ids, start, x);
      }
    }
  }

  /** Every text of the dict comes from the lookups. */
  lemma {:induction false} FetchedTexts(kit: Kit, ids: seq<string>, start: nat, x: string)
    requires FetchAll(kit, ids, start).Ok? && x in FetchAll(kit, ids, start).value.texts
    ensures TextOf(kit, ids, start, x, FetchAll(kit, ids, start).value.texts[x])
  {
    hide FetchAbstract, FoundText;
    var n := |ids| - 1;
    var fetched := FetchAbstract(kit, ids[n], start + n);
    if x == ids[n] && fetched.value.Some? {
      FetchedTextIsTheLookups(kit, ids[n], start + n);
    } else {
      FetchedTexts(kit, ids[..n], start, x);
      var text := FetchAll(kit, ids, start).value.texts[x];
      var j :| 0 <= j < n && ids[..n][j] == x && FoundText(kit, x, start + j, text);
      assert ids[j] == x;
    }
  }

  lemma HadAbstractSplits(kit: Kit, ids: seq<string>, start: nat, x: string)
    requires ids != []
    ensures var n := |ids| - 1;
            HadAbstract(kit, ids, start, x) <==>
            HadAbstract(kit, ids[..n], start, x) || (x == ids[n] && Readable(kit, x, start + n))
  {
    hide Readable;
    var n := |ids| - 1;
    if HadAbstract(kit, ids[..n], start, x) {
      var j :| 0 <= j < n && ids[..n][j] == x && Readable(kit, x, start + j);
      assert ids[j] == x;
    }
    if HadAbstract(kit, ids, start, x) {
      var j :| 0 <= j < |ids| && ids[j] == x && Readable(kit, x, start + j);
      if j < n { assert ids[..n][j] == x; }
    }
  }

  /** The primary tool raised `e` for one of the papers. */
  ghost predicate LookupRaised(kit: Kit, ids: seq<string>, start: nat, e: Exc) {
    exists j :: 0 <= j < |ids| && kit.lookup("s2_lookup", ids[j], start + j) == Raised(e)
  }

  lemma {:induction false} FetchErrorWasRaised(kit: Kit, ids: seq<string>, start: nat)
    requires FetchAll(kit, ids, start).Err?
    ensures LookupRaised(kit, ids, start, FetchAll(kit, ids, start).error)
  {
    hide FetchAbstract;
    var n := |ids| - 1;
    if FetchAll(kit, ids[..n], start).Err? {
      FetchErrorWasRaised(kit, ids[..n], start);
      var e := FetchAll(kit, ids[..n], start).error;
      var j :| 0 <= j < n && kit.lookup("s2_lookup", ids[..n][j], start + j) == Raised(e);
      assert kit.lookup("s2_lookup", ids[j], start + j) == Raised(e);
    } else {
      FetchErrorIsPrimary(kit, ids[n], start + n);
    }
  }

  lemma FetchErrorIsPrimary(kit: Kit, id: string, tick: nat)
    ensures var r := FetchAbstract(kit, id, tick); r.Err? ==> kit.lookup("s2_lookup", id, tick) == Raised(r.error)
  {
  }

  lemma FetchedIsReal(kit: Kit, id: string, tick: nat)
    requires FetchAbstract(kit, id, tick).Ok? && FetchAbstract(kit, id, tick).value.Some?
    ensures !("web:" <= id) && FetchAbstract(kit, id, tick).value.value != ""
  {
  }

  /** The fallback tool is consulted only for an arxiv paper after a transient error of
      the primary one: otherwise its behaviour makes no difference. */
  lemma FallbackOnlyAfterTransientErrors(a: Kit, b: Kit, id: string, tick: nat)
    requires a.lookup("s2_lookup", id, tick) == b.lookup("s2_lookup", id, tick)
    requires FetchAbstract(a, id, tick) != FetchAbstract(b, id, tick)
    ensures !("web:" <= id) && "arxiv:" <= id
    ensures exists e :: a.lookup("s2_lookup", id, tick) == Raised(e) && Transient(e)
  {
    match a.lookup("s2_lookup", id, tick)
    case Found(_) =>
    case Raised(e) =>
  }

  // ---- Acceptance ---------------------------------------------------------

  /** The section's answer names the section, reports on exactly the papers given, and
      mentions no other paper anywhere. */
  predicate Acceptable(out: DeepOutput, sectionId: string, input: set<string>) {
    && out.sectionId == sectionId
    && Elems(out.paperIdsProcessed) == input
    && Elems(out.insufficientPaperIds) <= input
    && forall c :: c in out.evidenceCards ==> c.paperId in input
  }

  /** The rows of the cards addressed to the section, numbered from `n`. */
  function RowsFrom(cards: seq<EvidenceCard>, runId: string, sectionId: string, input: set<string>,
                    n: nat): seq<EvidenceItem> {
    if cards == [] then []
    else
      var c := cards[0];
      if c.sectionId == sectionId && c.paperId in input
      then [EvidenceItem(EvidenceId(runId, sectionId, n), runId, c.paperId, sectionId, c.claim, c.sourceSpan, None,
                         c.confidence, ResearcherDeep)]
           + RowsFrom(cards[1..], runId, sectionId, input, n + 1)
      else RowsFrom(cards[1..], runId, sectionId, input, n)
  }

  /** Some row already carries an id the section would write. */
  ghost predicate Conflicts(rows: seq<EvidenceItem>, runId: string, sectionId: string, count: nat) {
    exists n :: 0 <= n < count && HasId(rows, EvidenceId(runId, sectionId, n))
  }

  /** A row made from one of the cards, with the given number. */
  ghost predicate MadeFrom(x: EvidenceItem, cards: seq<EvidenceCard>, runId: string, sectionId: string,
                           input: set<string>, n: nat) {
    && x.evidenceId == EvidenceId(runId, sectionId, n)
    && x.runId == runId && x.sectionId == sectionId && x.paperId in input
    && exists c :: c in cards && c.sectionId == sectionId && c.paperId == x.paperId && c.claim == x.claim
  }

  lemma MadeFromMore(x: EvidenceItem, cards: seq<EvidenceCard>, runId: string, sectionId: string, input: set<string>,
                     n: nat)
    requires cards != [] && MadeFrom(x, cards[1..], runId, sectionId, input, n)
    ensures MadeFrom(x, cards, runId, sectionId, input, n)
  {
    hide EvidenceId;
    var c :| c in cards[1..] && c.sectionId == sectionId && c.paperId == x.paperId && c.claim == x.claim;
    assert c in cards;
  }

  lemma {:induction false} RowsFromShape(cards: seq<EvidenceCard>, runId: string, sectionId: string,
                                         input: set<string>, n: nat, i: nat)
    requires i < |RowsFrom(cards, runId, sectionId, input, n)|
    ensures MadeFrom(RowsFrom(cards, runId, sectionId, input, n)[i], cards, runId, sectionId, input, n + i)
    decreases |cards|
  {
    hide EvidenceId, MadeFrom;
    var c := cards[0];
    if c.sectionId == sectionId && c.paperId in input {
      if i == 0 {
        assert MadeFrom(RowsFrom(cards, runId, sectionId, input, n)[0], cards, runId, sectionId, input, n) by {
          FirstRow(cards, runId, sectionId, input, n);
        }
      } else {
        RowsFromShape(cards[1..], runId, sectionId, input, n + 1, i - 1);
        MadeFromMore(RowsFrom(cards[1..], runId, sectionId, input, n + 1)[i - 1], cards, runId, sectionId, input,
                     n + i);
      }
    } else {
      RowsFromShape(cards[1..], runId, sectionId, input, n, i);
      MadeFromMore(RowsFrom(cards[1..], runId, sectionId, input, n)[i], cards, runId, sectionId, input, n + i);
    }
  }

  lemma FirstRow(cards: seq<EvidenceCard>, runId: string, sectionId: string, input: set<string>, n: nat)
    requires cards != [] && cards[0].sectionId == sectionId && cards[0].paperId in input
    ensures var rows := RowsFrom(cards, runId, sectionId, input, n);
            rows != [] && MadeFrom(rows[0], cards, runId, sectionId, input, n)
  {
    hide EvidenceId;
    assert cards[0] in cards;
  }

  /** One transaction: all the section's rows, or on a taken id none of them. */
  method Persist(store: Store, out: DeepOutput, runId: string, sectionId: string, input: set<string>) returns (ok: bool)
    modifies store
    ensures var rows := RowsFrom(out.evidenceCards, runId, sectionId, input, 0);
            && store.rows == old(store.rows) + (if ok then rows else [])
            && (ok <==> !Conflicts(old(store.rows), runId, sectionId, |rows|))
            && (UniqueIds(old(store.rows)) ==> UniqueIds(store.rows))
  {
    hide EvidenceId, HasId, UniqueIds;
    var before := store.rows;
    ghost var all := RowsFrom(out.evidenceCards, runId, sectionId, input, 0);
    forall i | 0 <= i < |all| ensures all[i].evidenceId == EvidenceId(runId, sectionId, i) {
      RowsFromShape(out.evidenceCards, runId, sectionId, input, 0, i);
    }
    var count := 0;
    for i := 0 to |out.evidenceCards|
      invariant count <= |all| && store.rows == before + all[..count]
      invariant RowsFrom(out.evidenceCards[i..], runId, sectionId, input, count) == all[count..]
      invariant forall n :: 0 <= n < count ==> !HasId(before, EvidenceId(runId, sectionId, n))
      invariant UniqueIds(before) ==> UniqueIds(store.rows)
    {
      var c := out.evidenceCards[i];
      assert out.evidenceCards[i..][0] == c && out.evidenceCards[i..][1..] == out.evidenceCards[i + 1..];
      if c.sectionId == sectionId && c.paperId in input {
        var item := EvidenceItem(EvidenceId(runId, sectionId, count), runId, c.paperId, sectionId, c.claim,
                                 c.sourceSpan, None, c.confidence, ResearcherDeep);
        assert item == all[count..][0] == all[count];
        assert all[count + 1..] == all[count..][1..];
        NewIdOnlyConflictsBefore(before, all, runId, sectionId, count);
        var saved := store.Save(item);
        if !saved {
          store.rows := before;
          ok := false;
          return;
        }
        assert before + all[..count] + [item] == before + all[..count + 1];
        count := count + 1;
      }
    }
    assert all[..count] == all;
    ok := true;
  }

  /** The section's own earlier rows never stand in the way of the next. */
  lemma NewIdOnlyConflictsBefore(before: seq<EvidenceItem>, all: seq<EvidenceItem>, runId: string, sectionId: string,
                                 count: nat)
    requires count < |all| && forall i :: 0 <= i < |all| ==> all[i].evidenceId == EvidenceId(runId, sectionId, i)
    ensures HasId(before + all[..count], EvidenceId(runId, sectionId, count)) <==>
              HasId(before, EvidenceId(runId, sectionId, count))
  {
    hide EvidenceId;
    var id, rows := EvidenceId(runId, sectionId, count), before + all[..count];
    if HasId(rows, id) {
      var x :| x in rows && x.evidenceId == id;
      if x !in before {
        assert x in all[..count];
        var i :| 0 <= i < count && all[i] == x;
        EvidenceIdInjective(runId, sectionId, i, sectionId, count);
      }
    }
    if HasId(before, id) {
      var x :| x in before && x.evidenceId == id;
      assert x in rows;
    }
  }

  // ---- One section --------------------------------------------------------

  /** Why a section ended without rows, or with what it was accepted. */
  datatype Verdict =
    | Passed
    | Rejected(category: ErrorCategory)
    | Accepted(out: DeepOutput, input: set<string>, reply: nat)
    | Stopped(exc: Option<Exc>)

  function JoinAbstracts(order: seq<string>, abstracts: map<string, string>): string
    requires Elems(order) <= abstracts.Keys
  {
    if order == [] then ""
    else
      var n := |order| - 1;
      assert order[n] in Elems(order);
      assert Elems(order[..n]) <= Elems(order);
      var last := "### Paper " + order[n] + "\n" + abstracts[order[n]];
      if n == 0 then last else JoinAbstracts(order[..n], abstracts) + "\n\n" + last
  }

  /** The section's user message. */
  function UserMessage(kit: Kit, section: PlannerSection, a: Abstracts): string
    requires Elems(a.order) <= a.texts.Keys
  {
    kit.template(section, a.order) + "\n\n### Available paper abstracts:\n\n" + JoinAbstracts(a.order, a.texts)
  }

  /** The blocks grow by one paper at a time: a blank line, its id, its text. */
  lemma {:induction false} AbstractsInOrder(order: seq<string>, abstracts: map<string, string>, k: nat)
    requires Elems(order) <= abstracts.Keys && 0 < k < |order|
    ensures Elems(order[..k]) <= abstracts.Keys && order[k] in abstracts
    ensures JoinAbstracts(order[..k], abstracts) + "\n\n" + ("### Paper " + order[k] + "\n" + abstracts[order[k]])
            <= JoinAbstracts(order, abstracts)
    decreases |order|
  {
    var n := |order| - 1;
    assert order[k] in Elems(order);
    assert Elems(order[..k]) <= Elems(order) && Elems(order[..n]) <= Elems(order);
    if k < n {
      assert order[..n][..k] == order[..k];
      AbstractsInOrder(order[..n], abstracts, k);
      assert JoinAbstracts(order[..n], abstracts) <= JoinAbstracts(order, abstracts);
    }
  }

  /** The message begins with the template for the section and the papers read, and ends
      with their texts. */
  lemma MessageHoldsTheAbstracts(kit: Kit, section: PlannerSection, a: Abstracts)
    requires Elems(a.order) <= a.texts.Keys
    ensures var user, texts := UserMessage(kit, section, a), JoinAbstracts(a.order, a.texts);
            && kit.template(section, a.order) <= user
            && |texts| <= |user| && user[|user| - |texts|..] == texts
  {
    hide JoinAbstracts;
  }

  /** The answer is what reply `i` says. */
  ghost predicate SaysReply(kit: Kit, script: nat -> Reply, i: nat, out: DeepOutput) {
    && script(i).Answered? && Judge(kit.format, script(i).message).Ok?
    && kit.parse(Judge(kit.format, script(i).message).value) == Some(out)
  }

  /** An exception either has a category, which rejects the section, or ends the node. */
  function OnException(e: Exc): Verdict {
    if e.category.Some? then Rejected(e.category.value) else Stopped(Some(e))
  }

  /** The verdict of a section whose prompt is within budget, from reply `start` on. */
  ghost function AnswerVerdict(kit: Kit, section: PlannerSection, input: set<string>, runId: string,
                               rows: seq<EvidenceItem>, script: nat -> Reply, start: nat): Verdict
  {
    var (settled, end) := Settle(kit.format, script, start, 2);
    match settled
    case Propagated(e) => OnException(e)
    case NoValidOutput(_) => Rejected(SchemaInvalid)
    case Parsed(value) =>
      match kit.parse(value)
      case None => Rejected(SchemaInvalid)
      case Some(out) =>
        if !Acceptable(out, section.sectionId, input) then Rejected(SchemaInvalid)
        else if Conflicts(rows, runId, section.sectionId,
                          |RowsFrom(out.evidenceCards, runId, section.sectionId, input, 0)|) then Stopped(None)
        else Accepted(out, input, end - 1)
  }

  /** A section's verdict: a fetch error, nothing to read, an oversized prompt, or what
      the model's answers come to. */
  ghost function SectionVerdict(kit: Kit, section: PlannerSection, ids: seq<string>, tick: nat, runId: string,
                                rows: seq<EvidenceItem>, script: nat -> Reply, start: nat): Verdict
  {
    match FetchAll(kit, ids, tick)
    case Err(e) => OnException(e)
    case Ok(a) =>
      if a.texts == map[] then Passed
      else
        FetchedPapers(kit, ids, tick);
        if |UserMessage(kit, section, a)| / 4 > 160000 then Rejected(ContextOverflow)
        else AnswerVerdict(kit, section, a.texts.Keys, runId, rows, script, start)
  }

  /** The messages of the section's call, if it comes to one. */
  ghost function CallOf(kit: Kit, section: PlannerSection, ids: seq<string>, tick: nat): Option<seq<Message>> {
    match FetchAll(kit, ids, tick)
    case Err(_) => None
    case Ok(a) =>
      if a.texts == map[] then None
      else
        FetchedPapers(kit, ids, tick);
        var user := UserMessage(kit, section, a);
        if |user| / 4 > 160000 then None else Some([Human(user)])
  }

  /** How many invocations the section makes, the first of them being number `start`. */
  ghost function Asked(kit: Kit, section: PlannerSection, ids: seq<string>, tick: nat, script: nat -> Reply,
                       start: nat): nat {
    if CallOf(kit, section, ids, tick).None? then 0 else Settle(kit.format, script, start, 2).1 - start
  }

  /** Their prompts. */
  ghost predicate AskedAs(kit: Kit, section: PlannerSection, ids: seq<string>, tick: nat, script: nat -> Reply,
                          prompts: seq<seq<Message>>, start: nat)
  {
    var call, n := CallOf(kit, section, ids, tick), Asked(kit, section, ids, tick, script, start);
    call.Some? ==> CallPrompts(kit.format, call.value, script, prompts, start, start + n)
  }

  /** An acceptance: from a reply, about exactly the papers of this section that had an
      abstract, none of them a web page. */
  ghost predicate AcceptedFairly(kit: Kit, section: PlannerSection, ids: seq<string>, tick: nat,
                                 script: nat -> Reply, v: Verdict) {
    v.Accepted? ==>
      && SaysReply(kit, script, v.reply, v.out) && Acceptable(v.out, section.sectionId, v.input) && v.input != {}
      && ReadSet(kit, ids, tick, v.input)
      && forall x :: x in v.input ==> x in ids && !("web:" <= x)
  }

  /** An exception ends the node only unclassified, and comes from the primary tool or
      from one of the section's own invocations. */
  ghost predicate StoppedFairly(kit: Kit, ids: seq<string>, tick: nat, script: nat -> Reply, start: nat, n: nat,
                                v: Verdict) {
    v.Stopped? && v.exc.Some? ==>
      && v.exc.value.category.None?
      && (|| LookupRaised(kit, ids, tick, v.exc.value)
          || exists i :: start <= i < start + n && script(i) == Failed(v.exc.value))
  }

  /** A rejection has its cause: a prompt over 160000 tokens; an exception, of the primary
      tool or of the model, of that category; or a last reply that is no acceptable answer. */
  ghost predicate RejectedFairly(kit: Kit, section: PlannerSection, ids: seq<string>, tick: nat, script: nat -> Reply,
                                 start: nat, n: nat, v: Verdict)
  {
    v.Rejected? ==>
      || (v.category == ContextOverflow && n == 0 && Oversized(kit, section, ids, tick))
      || (exists e: Exc :: e.category == Some(v.category)
                           && (|| LookupRaised(kit, ids, tick, e)
                               || exists i :: start <= i < start + n && script(i) == Failed(e)))
      || (v.category == SchemaInvalid && n > 0 && AnswersBadly(kit, section, ids, tick, script, start + n - 1))
  }

  /** Reply `i` is an answer, and not one that could be accepted. */
  ghost predicate AnswersBadly(kit: Kit, section: PlannerSection, ids: seq<string>, tick: nat, script: nat -> Reply,
                               i: nat) {
    script(i).Answered? && forall out :: SaysReply(kit, script, i, out) ==> !AcceptableFor(kit, section, ids, tick, out)
  }

  /** Acceptable with respect to the papers that had an abstract. */
  ghost predicate AcceptableFor(kit: Kit, section: PlannerSection, ids: seq<string>, tick: nat, out: DeepOutput) {
    exists input: set<string> :: ReadSet(kit, ids, tick, input) && Acceptable(out, section.sectionId, input)
  }

  /** Exactly the papers that had an abstract. */
  ghost predicate ReadSet(kit: Kit, ids: seq<string>, tick: nat, input: set<string>) {
    forall x :: x in input <==> HadAbstract(kit, ids, tick, x)
  }

  ghost predicate Oversized(kit: Kit, section: PlannerSection, ids: seq<string>, tick: nat) {
    match FetchAll(kit, ids, tick)
    case Err(_) => false
    case Ok(a) =>
      FetchedPapers(kit, ids, tick);
      a.texts != map[] && |UserMessage(kit, section, a)| / 4 > 160000
  }

  /** A passed section had nothing to read. */
  ghost predicate PassedFairly(kit: Kit, ids: seq<string>, tick: nat, v: Verdict) {
    v.Passed? ==> forall x :: !HadAbstract(kit, ids, tick, x)
  }

  lemma {:induction false} SettledByLastReply(f: Format, script: nat -> Reply, i: nat, left: nat)
    ensures var (o, end) := Settle(f, script, i, left);
            match o
            case Parsed(value) => script(end - 1).Answered? && Judge(f, script(end - 1).message) == Ok(value)
            case NoValidOutput(e) => script(end - 1).Answered? && Judge(f, script(end - 1).message) == Err(e)
            case Propagated(exc) => script(end - 1) == Failed(exc)
    decreases left
  {
    hide Judge;
    if left > 0 { SettledByLastReply(f, script, i + 1, left - 1); }
  }

  lemma VerdictIsFair(kit: Kit, section: PlannerSection, ids: seq<string>, tick: nat, runId: string,
                      rows: seq<EvidenceItem>, script: nat -> Reply, start: nat)
    ensures var v := SectionVerdict(kit, section, ids, tick, runId, rows, script, start);
            var n := Asked(kit, section, ids, tick, script, start);
            && AcceptedFairly(kit, section, ids, tick, script, v) && PassedFairly(kit, ids, tick, v)
            && StoppedFairly(kit, ids, tick, script, start, n, v)
            && RejectedFairly(kit, section, ids, tick, script, start, n, v)
            && (v == Stopped(None) ==> Taken(rows, runId, section.sectionId))
  {
    hide Judge, RowsFrom, Acceptable, FetchAll, UserMessage, HasId, EvidenceId, LookupRaised, HadAbstract,
         AnswersBadly;
    SettledByLastReply(kit.format, script, start, 2);
    if FetchAll(kit, ids, tick).Ok? {
      FetchedPapers(kit, ids, tick);
      var input := FetchAll(kit, ids, tick).value.texts.Keys;
      var last := Settle(kit.format, script, start, 2).1 - 1;
      if SectionVerdict(kit, section, ids, tick, runId, rows, script, start) == Rejected(SchemaInvalid)
          && script(last).Answered? {
        BadlyAnswered(kit, section, ids, tick, script, last, input);
      }
    } else {
      FetchErrorWasRaised(kit, ids, tick);
    }
  }

  lemma ReadSetIsOne(kit: Kit, ids: seq<string>, tick: nat, a: set<string>, b: set<string>)
    requires ReadSet(kit, ids, tick, a) && ReadSet(kit, ids, tick, b)
    ensures a == b
  {
    hide HadAbstract;
    forall x ensures x in a <==> x in b { assert x in a <==> HadAbstract(kit, ids, tick, x); }
  }

  lemma BadlyAnswered(kit: Kit, section: PlannerSection, ids: seq<string>, tick: nat, script: nat -> Reply, i: nat,
                      input: set<string>)
    requires script(i).Answered? && ReadSet(kit, ids, tick, input)
    ensures (forall out :: SaysReply(kit, script, i, out) ==> !Acceptable(out, section.sectionId, input)) ==>
              AnswersBadly(kit, section, ids, tick, script, i)
  {
    hide SaysReply, Acceptable, HadAbstract, ReadSet;
    if forall out :: SaysReply(kit, script, i, out) ==> !Acceptable(out, section.sectionId, input) {
      forall out | SaysReply(kit, script, i, out) ensures !AcceptableFor(kit, section, ids, tick, out) {
        if AcceptableFor(kit, section, ids, tick, out) {
          var other :| ReadSet(kit, ids, tick, other) && Acceptable(out, section.sectionId, other);
          ReadSetIsOne(kit, ids, tick, other, input);
        }
      }
    }
  }

  /** The rows a verdict stands for. */
  function RowsOf(v: Verdict, runId: string, sectionId: string): seq<EvidenceItem> {
    if v.Accepted? then RowsFrom(v.out.evidenceCards, runId, sectionId, v.input, 0) else []
  }

  /** Some id the section could write is in the table. */
  ghost predicate Taken(rows: seq<EvidenceItem>, runId: string, sectionId: string) {
    exists n: nat :: HasId(rows, EvidenceId(runId, sectionId, n))
  }

  /** The prompts of a call whose first invocation is number `start`. */
  ghost predicate CallPrompts(f: Format, messages: seq<Message>, script: nat -> Reply, prompts: seq<seq<Message>>,
                              start: nat, end: nat) {
    end <= |prompts| && forall i :: start <= i < end ==> prompts[i] == PromptAt(f, messages, script, start, i)
  }

  /** From the prompt to the verdict. */
  method AskSection(kit: Kit, section: PlannerSection, input: set<string>, user: string, runId: string, store: Store,
                    llm: LlmClient)
    returns (v: Verdict)
    modifies store, llm
    ensures v == AnswerVerdict(kit, section, input, runId, old(store.rows), llm.script, |old(llm.prompts)|)
    ensures old(llm.prompts) <= llm.prompts && |llm.prompts| == Settle(kit.format, llm.script, |old(llm.prompts)|, 2).1
    ensures CallPrompts(kit.format, [Human(user)], llm.script, llm.prompts, |old(llm.prompts)|, |llm.prompts|)
    ensures store.rows == old(store.rows) + RowsOf(v, runId, section.sectionId)
    ensures UniqueIds(old(store.rows)) ==> UniqueIds(store.rows)
  {
    hide UniqueIds, Judge, RowsFrom, PromptAt, Conflicts, Settle;
    var called := Invoke(llm, [Human(user)], kit.format, 2);
    match called {
      case Propagated(e) => return OnException(e);
      case NoValidOutput(_) => return Rejected(SchemaInvalid);
      case Parsed(value) =>
        var parsed := kit.parse(value);
        if parsed.None? { return Rejected(SchemaInvalid); }
        var out := parsed.value;
        var acceptable := CheckAnswer(out, section.sectionId, input);
        if !acceptable { return Rejected(SchemaInvalid); }
        var ok := Persist(store, out, runId, section.sectionId, input);
        if !ok { return Stopped(None); }
        v := Accepted(out, input, |llm.prompts| - 1);
    }
  }

  method ProcessSection(kit: Kit, section: PlannerSection, ids: seq<string>, runId: string, tick: nat,
                        store: Store, budget: BudgetManager, llm: LlmClient)
    returns (v: Verdict)
    modifies store, budget, llm
    ensures v == SectionVerdict(kit, section, ids, tick, runId, old(store.rows), llm.script, |old(llm.prompts)|)
    ensures old(llm.prompts) <= llm.prompts
    ensures |llm.prompts| == |old(llm.prompts)| + Asked(kit, section, ids, tick, llm.script, |old(llm.prompts)|)
    ensures AskedAs(kit, section, ids, tick, llm.script, llm.prompts, |old(llm.prompts)|)
    ensures store.rows == old(store.rows) + RowsOf(v, runId, section.sectionId)
    ensures UniqueIds(old(store.rows)) ==> UniqueIds(store.rows)
    ensures var before := old(budget.UsageOf(ResearcherDeep));
            budget.UsageOf(ResearcherDeep)
            == before.(overflows := before.overflows + if Oversized(kit, section, ids, tick) then 1 else 0)
  {
    hide UniqueIds, RowsFrom, PromptAt, FetchAll, JoinAbstracts, Settle, AnswerVerdict;
    var fetched := FetchAbstracts(kit, ids, tick);
    if fetched.Err? { return OnException(fetched.error); }
    var abstracts := fetched.value;
    if abstracts.texts == map[] { return Passed; }
    FetchedPapers(kit, ids, tick);
    var user := UserMessage(kit, section, abstracts);
    var spec := budget.Check(ResearcherDeep, |user| / 4);
    if spec.None? { return Rejected(ContextOverflow); }
    v := AskSection(kit, section, abstracts.texts.Keys, user, runId, store, llm);
  }

  /** The checks on the answer, one after another as the original makes them. */
  method CheckAnswer(out: DeepOutput, sectionId: string, input: set<string>) returns (ok: bool)
    ensures ok <==> Acceptable(out, sectionId, input)
  {
    if out.sectionId != sectionId { return false; }
    var processed, insufficient := Elems(out.paperIdsProcessed), Elems(out.insufficientPaperIds);
    var cards := set c | c in out.evidenceCards :: c.paperId;
    if !(processed <= input) { return false; }
    if !(insufficient <= input) { return false; }
    if !(cards <= input) {
      assert exists c :: c in out.evidenceCards && c.paperId !in input;
      return false;
    }
    forall c | c in out.evidenceCards ensures c.paperId in input { assert c.paperId in cards; }
    ok := processed == input;
  }

  // ---- The node -----------------------------------------------------------

  /** A section's turn: the papers fetched from the tick-th fetch on, the invocations
      made from number `start` on, and the verdict. */
  datatype Entry = Entry(section: PlannerSection, ids: seq<string>, tick: nat, start: nat, asked: nat, verdict: Verdict)

  /** What a pass starts from: the evidence table is `initial`, and its first invocation
      of the model is number `first`. */
  datatype Pass = Pass(kit: Kit, outline: seq<PlannerSection>, notes: map<string, seq<Note>>, queue: seq<string>,
                       runId: string, initial: seq<EvidenceItem>, script: nat -> Reply, first: nat)

  datatype DeepResult = DeepDone(queue: seq<string>, category: Option<ErrorCategory>) | DeepRaised(exc: Option<Exc>)

  /** No later entry of the outline has the same id. */
  ghost predicate LastWithId(outline: seq<PlannerSection>, section: PlannerSection) {
    exists i :: 0 <= i < |outline| && outline[i] == section
                && forall j :: i < j < |outline| ==> outline[j].sectionId != section.sectionId
  }

  /** The last outline entry with the id wins, as in a dict built in order. */
  function SectionOf(outline: seq<PlannerSection>, id: string): (r: Option<PlannerSection>)
    ensures r.Some? ==> r.value in outline && r.value.sectionId == id && LastWithId(outline, r.value)
    ensures r.None? ==> forall s :: s in outline ==> s.sectionId != id
  {
    if outline == [] then None
    else
      var last := outline[|outline| - 1];
      assert outline == outline[..|outline| - 1] + [last];
      if last.sectionId == id then
        assert LastWithId(outline, last) by { assert outline[|outline| - 1] == last; }
        Some(last)
      else
        var r := SectionOf(outline[..|outline| - 1], id);
        assert r.Some? ==> LastWithId(outline, r.value) by {
          if r.Some? { LastWithIdGrows(outline, r.value); }
        }
        r
  }

  lemma LastWithIdGrows(outline: seq<PlannerSection>, section: PlannerSection)
    requires outline != [] && LastWithId(outline[..|outline| - 1], section)
    requires outline[|outline| - 1].sectionId != section.sectionId
    ensures LastWithId(outline, section)
  {
    var front := outline[..|outline| - 1];
    var i :| 0 <= i < |front| && front[i] == section
             && forall j :: i < j < |front| ==> front[j].sectionId != section.sectionId;
    assert outline[i] == section;
    forall j | i < j < |outline| ensures outline[j].sectionId != section.sectionId {
      if j < |front| { assert front[j] == outline[j]; }
    }
  }

  function AllRows(log: seq<Entry>, runId: string): seq<EvidenceItem> {
    if log == [] then []
    else
      var e := log[|log| - 1];
      AllRows(log[..|log| - 1], runId) + RowsOf(e.verdict, runId, e.section.sectionId)
  }

  function Processed(log: seq<Entry>): (r: set<string>)
    ensures forall x :: x in r <==> exists k :: 0 <= k < |log| && log[k].verdict.Accepted? && x in log[k].verdict.input
  {
    if log == [] then {}
    else
      var e := log[|log| - 1];
      var rest := Processed(log[..|log| - 1]);
      if e.verdict.Accepted? then rest + e.verdict.input else rest
  }

  function LastCategoryOf(log: seq<Entry>): Option<ErrorCategory> {
    if log == [] then None
    else if log[|log| - 1].verdict.Rejected? then Some(log[|log| - 1].verdict.category)
    else LastCategoryOf(log[..|log| - 1])
  }

  /** The papers that stay: neither processed nor web pages. */
  function Remaining(queue: seq<string>, processed: set<string>): seq<string> {
    if queue == [] then []
    else
      var last := queue[|queue| - 1];
      Remaining(queue[..|queue| - 1], processed) + if last !in processed && !IsWeb(last) then [last] else []
  }

  function TickAfter(log: seq<Entry>): nat {
    if log == [] then 0 else log[|log| - 1].tick + |log[|log| - 1].ids|
  }

  function InvokedBy(first: nat, log: seq<Entry>): nat {
    if log == [] then first else log[|log| - 1].start + log[|log| - 1].asked
  }

  /** The entry is a section with queued papers, and its verdict and prompts are those the
      lookups, the replies and the rows it met call for. */
  ghost predicate Decided(p: Pass, rows: seq<EvidenceItem>, prompts: seq<seq<Message>>, e: Entry) {
    var id := e.section.sectionId;
    && id in p.notes && SectionOf(p.outline, id) == Some(e.section)
    && e.ids == QueuedPapers(p.notes[id], p.queue) != []
    && e.verdict == SectionVerdict(p.kit, e.section, e.ids, e.tick, p.runId, rows, p.script, e.start)
    && e.asked == Asked(p.kit, e.section, e.ids, e.tick, p.script, e.start)
    && AskedAs(p.kit, e.section, e.ids, e.tick, p.script, prompts, e.start)
  }

  /** The entry comes after those done: it meets the rows they left, and its fetches and
      invocations go on where theirs ended. */
  ghost predicate Follows(p: Pass, prompts: seq<seq<Message>>, done: seq<Entry>, e: Entry) {
    && Decided(p, p.initial + AllRows(done, p.runId), prompts, e)
    && e.tick == TickAfter(done) && e.start == InvokedBy(p.first, done)
    && forall k :: 0 <= k < |done| ==> done[k].section.sectionId != e.section.sectionId
  }

  /** The entries are decided one after the other; no section has two. */
  ghost predicate LogOk(p: Pass, prompts: seq<seq<Message>>, log: seq<Entry>) {
    InvokedBy(p.first, log) <= |prompts| && forall k :: 0 <= k < |log| ==> Follows(p, prompts, log[..k], log[k])
  }

  lemma FollowsStays(p: Pass, prompts: seq<seq<Message>>, more: seq<seq<Message>>, done: seq<Entry>, e: Entry)
    requires Follows(p, prompts, done, e) && prompts <= more
    ensures Follows(p, more, done, e)
  {
    hide SectionVerdict, Asked, CallOf, QueuedPapers, SectionOf, PromptAt, AllRows;
  }

  lemma LogStays(p: Pass, prompts: seq<seq<Message>>, more: seq<seq<Message>>, log: seq<Entry>)
    requires LogOk(p, prompts, log) && prompts <= more
    ensures LogOk(p, more, log)
  {
    hide Follows, InvokedBy;
    forall k | 0 <= k < |log| ensures Follows(p, more, log[..k], log[k]) {
      FollowsStays(p, prompts, more, log[..k], log[k]);
    }
  }

  lemma LogGrows(p: Pass, prompts: seq<seq<Message>>, more: seq<seq<Message>>, log: seq<Entry>, e: Entry)
    requires LogOk(p, prompts, log) && prompts <= more
    requires Follows(p, more, log, e) && e.start + e.asked <= |more|
    ensures LogOk(p, more, log + [e])
  {
    hide Follows;
    var all := log + [e];
    forall k | 0 <= k < |all| ensures Follows(p, more, all[..k], all[k]) {
      if k < |log| {
        assert all[..k] == log[..k] && all[k] == log[k];
        FollowsStays(p, prompts, more, log[..k], log[k]);
      } else {
        assert all[..k] == log;
      }
    }
  }

  lemma TotalsGrow(log: seq<Entry>, runId: string, e: Entry)
    ensures AllRows(log + [e], runId) == AllRows(log, runId) + RowsOf(e.verdict, runId, e.section.sectionId)
    ensures Processed(log + [e]) == Processed(log) + (if e.verdict.Accepted? then e.verdict.input else {})
    ensures LastCategoryOf(log + [e]) == if e.verdict.Rejected? then Some(e.verdict.category) else LastCategoryOf(log)
  {
    hide RowsOf;
    assert (log + [e])[..|log|] == log;
  }

  /** What a verdict in the log rests on. */
  lemma EntryIsFair(p: Pass, prompts: seq<seq<Message>>, log: seq<Entry>, k: nat)
    requires LogOk(p, prompts, log) && k < |log|
    ensures var e := log[k];
            && e.section.sectionId in p.notes && e.ids == QueuedPapers(p.notes[e.section.sectionId], p.queue)
            && AcceptedFairly(p.kit, e.section, e.ids, e.tick, p.script, e.verdict)
            && StoppedFairly(p.kit, e.ids, e.tick, p.script, e.start, e.asked, e.verdict)
            && RejectedFairly(p.kit, e.section, e.ids, e.tick, p.script, e.start, e.asked, e.verdict)
            && PassedFairly(p.kit, e.ids, e.tick, e.verdict)
            && (e.verdict == Stopped(None) ==>
                Taken(p.initial + AllRows(log[..k], p.runId), p.runId, e.section.sectionId))
  {
    hide SectionVerdict, Asked, AskedAs, QueuedPapers, SectionOf, AllRows, AcceptedFairly, StoppedFairly,
         RejectedFairly, PassedFairly, Taken;
    var e := log[k];
    assert Follows(p, prompts, log[..k], e);
    VerdictIsFair(p.kit, e.section, e.ids, e.tick, p.runId, p.initial + AllRows(log[..k], p.runId), p.script, e.start);
  }

  /** Every section with queued papers and an outline entry has had its turn. */
  ghost predicate Covered(outline: seq<PlannerSection>, notes: map<string, seq<Note>>, queue: seq<string>,
                          left: set<string>, log: seq<Entry>) {
    forall id :: id in notes && id !in left && QueuedPapers(notes[id], queue) != [] && SectionOf(outline, id).Some? ==>
      Visited(log, id)
  }

  ghost predicate Visited(log: seq<Entry>, id: string) {
    exists k :: 0 <= k < |log| && log[k].section.sectionId == id
  }

  lemma CoveredAfter(outline: seq<PlannerSection>, notes: map<string, seq<Note>>, queue: seq<string>,
                     left: set<string>, log: seq<Entry>, e: Entry)
    requires Covered(outline, notes, queue, left, log)
    ensures Covered(outline, notes, queue, left - {e.section.sectionId}, log + [e])
  {
    hide QueuedPapers, SectionOf;
    forall id | id in notes && id !in left - {e.section.sectionId}
                && QueuedPapers(notes[id], queue) != [] && SectionOf(outline, id).Some?
      ensures Visited(log + [e], id)
    {
      if id in left {
        assert (log + [e])[|log|].section.sectionId == id;
      } else {
        assert Visited(log, id);
        var k :| 0 <= k < |log| && log[k].section.sectionId == id;
        assert (log + [e])[k].section.sectionId == id;
      }
    }
  }

  method Run(kit: Kit, outline: seq<PlannerSection>, notes: map<string, seq<Note>>, queue: seq<string>, runId: string,
             store: Store, budget: BudgetManager, llm: LlmClient)
    returns (r: DeepResult, ghost log: seq<Entry>)
    modifies store, budget, llm
    ensures old(llm.prompts) <= llm.prompts
    ensures var p := Pass(kit, outline, notes, queue, runId, old(store.rows), llm.script, |old(llm.prompts)|);
            LogOk(p, llm.prompts, log) && InvokedBy(p.first, log) == |llm.prompts|
    ensures store.rows == old(store.rows) + AllRows(log, runId)
    ensures UniqueIds(old(store.rows)) ==> UniqueIds(store.rows)
    ensures match r
            case DeepDone(newQueue, category) =>
              && newQueue == Remaining(queue, Processed(log)) && category == LastCategoryOf(log)
              && Covered(outline, notes, queue, {}, log)
              && (forall k :: 0 <= k < |log| ==> !log[k].verdict.Stopped?)
            case DeepRaised(exc) =>
              && log != [] && log[|log| - 1].verdict == Stopped(exc)
              && (forall k :: 0 <= k < |log| - 1 ==> !log[k].verdict.Stopped?)
              && (exc.None? ==> Taken(old(store.rows), runId, log[|log| - 1].section.sectionId))
  {
    hide HasId, UniqueIds, QueuedPapers, RowsOf, SectionOf, Taken, Remaining, SectionVerdict, Asked, AskedAs,
         Reached, LogOk, AllRows, Processed, LastCategoryOf, Covered, InvokedBy, TickAfter;
    ghost var p := Pass(kit, outline, notes, queue, runId, store.rows, llm.script, |llm.prompts|);
    log := [];
    var lastCategory, processed := None, {};
    var tick: nat := 0;
    var left := notes.Keys;
    NoEntries(p, llm.prompts);
    while left != {}
      invariant left <= notes.Keys
      invariant Reached(p, llm.prompts, store.rows, left, log, tick, processed, lastCategory)
      invariant forall k :: 0 <= k < |log| ==> !log[k].verdict.Stopped?
      invariant UniqueIds(p.initial) ==> UniqueIds(store.rows)
      invariant old(llm.prompts) <= llm.prompts
      decreases |left|
    {
      var id :| id in left;
      var ids := QueuedPapers(notes[id], queue);
      var section := SectionOf(outline, id);
      if ids == [] || section.None? {
        PassedOver(p, llm.prompts, store.rows, left, log, tick, processed, lastCategory, id);
        left := left - {id};
      } else {
        ghost var prompts, rows, before := llm.prompts, store.rows, log;
        var v := ProcessSection(kit, section.value, ids, runId, tick, store, budget, llm);
        ghost var e := Entry(section.value, ids, tick, |prompts|, |llm.prompts| - |prompts|, v);
        TurnTaken(p, prompts, llm.prompts, rows, left, log, processed, lastCategory, e);
        left := left - {id};
        tick := tick + |ids|;
        log := log + [e];
        match v {
          case Passed =>
          case Rejected(category) => lastCategory := Some(category);
          case Accepted(_, input, _) => processed := processed + input;
          case Stopped(exc) =>
            if exc.None? { FirstConflictWasThere(p, llm.prompts, before, e); }
            WhereItEnds(p, llm.prompts, store.rows, left, log, tick, processed, lastCategory);
            r := DeepRaised(exc);
            return;
        }
      }
    }
    WhereItEnds(p, llm.prompts, store.rows, left, log, tick, processed, lastCategory);
    r := DeepDone(Remaining(queue, processed), lastCategory);
  }

  /** The loop's variables, and the state around it, once the sections outside `left`
      have had their turn. */
  ghost predicate Reached(p: Pass, prompts: seq<seq<Message>>, rows: seq<EvidenceItem>, left: set<string>,
                          log: seq<Entry>, tick: nat, processed: set<string>, lastCategory: Option<ErrorCategory>)
  {
    && LogOk(p, prompts, log) && InvokedBy(p.first, log) == |prompts| && TickAfter(log) == tick
    && (forall k :: 0 <= k < |log| ==> log[k].section.sectionId !in left)
    && rows == p.initial + AllRows(log, p.runId)
    && lastCategory == LastCategoryOf(log) && processed == Processed(log)
    && Covered(p.outline, p.notes, p.queue, left, log)
  }

  lemma NoEntries(p: Pass, prompts: seq<seq<Message>>)
    requires p.first == |prompts|
    ensures Reached(p, prompts, p.initial, p.notes.Keys, [], 0, {}, None)
  {
    hide QueuedPapers, SectionOf;
    assert p.initial + [] == p.initial;
  }

  lemma PassedOver(p: Pass, prompts: seq<seq<Message>>, rows: seq<EvidenceItem>, left: set<string>, log: seq<Entry>,
                   tick: nat, processed: set<string>, lastCategory: Option<ErrorCategory>, id: string)
    requires id in p.notes && (QueuedPapers(p.notes[id], p.queue) == [] || SectionOf(p.outline, id).None?)
    requires Reached(p, prompts, rows, left, log, tick, processed, lastCategory)
    ensures Reached(p, prompts, rows, left - {id}, log, tick, processed, lastCategory)
  {
    hide QueuedPapers, SectionOf, LogOk, Covered, Processed, AllRows;
    NothingToCover(p.outline, p.notes, p.queue, left, log, id);
  }

  lemma WhereItEnds(p: Pass, prompts: seq<seq<Message>>, rows: seq<EvidenceItem>, left: set<string>, log: seq<Entry>,
                    tick: nat, processed: set<string>, lastCategory: Option<ErrorCategory>)
    requires Reached(p, prompts, rows, left, log, tick, processed, lastCategory)
    ensures LogOk(p, prompts, log) && InvokedBy(p.first, log) == |prompts|
    ensures rows == p.initial + AllRows(log, p.runId)
    ensures lastCategory == LastCategoryOf(log) && processed == Processed(log)
    ensures Covered(p.outline, p.notes, p.queue, left, log)
  {
    hide LogOk, Covered, Processed, AllRows;
  }

  function ProcessedBy(v: Verdict): set<string> {
    if v.Accepted? then v.input else {}
  }

  function CategoryAfter(v: Verdict, before: Option<ErrorCategory>): Option<ErrorCategory> {
    if v.Rejected? then Some(v.category) else before
  }

  /** One section's turn, as the log sees it. */
  lemma TurnTaken(p: Pass, prompts: seq<seq<Message>>, more: seq<seq<Message>>, rows: seq<EvidenceItem>,
                  left: set<string>, log: seq<Entry>, processed: set<string>, lastCategory: Option<ErrorCategory>,
                  e: Entry)
    requires Reached(p, prompts, rows, left, log, e.tick, processed, lastCategory)
    requires prompts <= more && e.start == |prompts| && e.start + e.asked == |more|
    requires var id := e.section.sectionId;
             && id in p.notes && id in left && SectionOf(p.outline, id) == Some(e.section)
             && e.ids == QueuedPapers(p.notes[id], p.queue) != []
    requires e.verdict == SectionVerdict(p.kit, e.section, e.ids, e.tick, p.runId, rows, p.script, e.start)
    requires e.asked == Asked(p.kit, e.section, e.ids, e.tick, p.script, e.start)
    requires AskedAs(p.kit, e.section, e.ids, e.tick, p.script, more, e.start)
    ensures LogOk(p, more, log + [e])
    ensures Reached(p, more, rows + RowsOf(e.verdict, p.runId, e.section.sectionId), left - {e.section.sectionId},
                    log + [e],
                    e.tick + |e.ids|, processed + ProcessedBy(e.verdict), CategoryAfter(e.verdict, lastCategory))
  {
    hide SectionVerdict, Asked, AskedAs, QueuedPapers, SectionOf, AllRows, LogOk, Covered, Processed,
         LastCategoryOf, RowsOf;
    assert Follows(p, more, log, e);
    LogGrows(p, prompts, more, log, e);
    CoveredAfter(p.outline, p.notes, p.queue, left, log, e);
    TotalsGrow(log, p.runId, e);
  }

  lemma FirstConflictWasThere(p: Pass, prompts: seq<seq<Message>>, log: seq<Entry>, e: Entry)
    requires LogOk(p, prompts, log + [e]) && e.verdict == Stopped(None)
    ensures Taken(p.initial, p.runId, e.section.sectionId)
  {
    hide Decided, AllRows, Taken, AcceptedFairly, StoppedFairly, QueuedPapers;
    var all := log + [e];
    assert all[..|log|] == log;
    EntryIsFair(p, prompts, all, |log|);
    assert Follows(p, prompts, all[..|log|], all[|log|]);
    EarlierSectionsDoNotConflict(p.initial, log, p.runId, e.section.sectionId);
  }

  lemma NothingToCover(outline: seq<PlannerSection>, notes: map<string, seq<Note>>, queue: seq<string>,
                       left: set<string>, log: seq<Entry>, id: string)
    requires id in notes && (QueuedPapers(notes[id], queue) == [] || SectionOf(outline, id).None?)
    requires Covered(outline, notes, queue, left, log)
    ensures Covered(outline, notes, queue, left - {id}, log)
  {
    hide QueuedPapers, SectionOf, Visited;
  }

  // ---- What the pass guarantees -------------------------------------------

  /** Row `x` was written for the section of entry `e`. */
  ghost predicate WrittenFor(e: Entry, runId: string, x: EvidenceItem) {
    e.verdict.Accepted? && x in RowsOf(e.verdict, runId, e.section.sectionId)
  }

  lemma {:induction false} RowsComeFromAcceptedSections(log: seq<Entry>, runId: string, x: EvidenceItem)
    ensures x in AllRows(log, runId) <==> exists k :: 0 <= k < |log| && WrittenFor(log[k], runId, x)
  {
    hide RowsFrom;
    if log != [] {
      var n := |log| - 1;
      RowsComeFromAcceptedSections(log[..n], runId, x);
      if x in AllRows(log[..n], runId) {
        var k :| 0 <= k < n && WrittenFor(log[..n][k], runId, x);
        assert WrittenFor(log[k], runId, x);
      } else if x in AllRows(log, runId) {
        assert WrittenFor(log[n], runId, x);
      }
      if k :| 0 <= k < |log| && WrittenFor(log[k], runId, x) {
        if k < n { assert WrittenFor(log[..n][k], runId, x); }
      }
    }
  }

  /** A row of the pass: this run, the section, a paper the section was given, a card of
      the accepted answer, and an id of the section. */
  lemma WrittenRow(e: Entry, runId: string, x: EvidenceItem) returns (n: nat)
    requires WrittenFor(e, runId, x)
    ensures MadeFrom(x, e.verdict.out.evidenceCards, runId, e.section.sectionId, e.verdict.input, n)
  {
    hide MadeFrom;
    var rows := RowsOf(e.verdict, runId, e.section.sectionId);
    n :| 0 <= n < |rows| && rows[n] == x;
    RowsFromShape(e.verdict.out.evidenceCards, runId, e.section.sectionId, e.verdict.input, 0, n);
  }

  /** Ids of a section not yet written by the pass can only be taken from before. */
  lemma EarlierSectionsDoNotConflict(initial: seq<EvidenceItem>, log: seq<Entry>, runId: string, sectionId: string)
    requires forall k :: 0 <= k < |log| ==> log[k].section.sectionId != sectionId
    requires Taken(initial + AllRows(log, runId), runId, sectionId)
    ensures Taken(initial, runId, sectionId)
  {
    hide EvidenceId, AllRows, WrittenFor;
    var n: nat :| HasId(initial + AllRows(log, runId), EvidenceId(runId, sectionId, n));
    var x :| x in initial + AllRows(log, runId) && x.evidenceId == EvidenceId(runId, sectionId, n);
    if x !in initial {
      RowsComeFromAcceptedSections(log, runId, x);
      var k :| 0 <= k < |log| && WrittenFor(log[k], runId, x);
      var m := WrittenRow(log[k], runId, x);
      EvidenceIdInjective(runId, sectionId, n, log[k].section.sectionId, m);
    }
    assert HasId(initial, EvidenceId(runId, sectionId, n));
  }

  // ---- The queue ----------------------------------------------------------

  lemma {:induction false} RemainingKeepsOrder(queue: seq<string>, processed: set<string>)
    ensures Subsequence(Remaining(queue, processed), queue)
  {
    if queue != [] {
      var n := |queue| - 1;
      RemainingKeepsOrder(queue[..n], processed);
      assert queue == queue[..n] + [queue[n]];
      SubsequenceBothGrow(Remaining(queue[..n], processed), queue[..n], queue[n]);
      SubsequenceWeaken(Remaining(queue[..n], processed), queue);
      assert Remaining(queue[..n], processed) + [] == Remaining(queue[..n], processed);
    }
  }

  lemma {:induction false} RemainingCounts(queue: seq<string>, processed: set<string>, x: string)
    ensures multiset(Remaining(queue, processed))[x] == if x in processed || IsWeb(x) then 0 else multiset(queue)[x]
  {
    if queue != [] {
      RemainingCounts(queue[..|queue| - 1], processed, x);
      SplitLast(queue);
    }
  }

  /** The section of the entry was accepted, and had `x` with an abstract. */
  ghost predicate Read(p: Pass, e: Entry, x: string) {
    e.verdict.Accepted? && HadAbstract(p.kit, e.ids, e.tick, x)
  }

  ghost predicate ReadAndAccepted(p: Pass, log: seq<Entry>, x: string) {
    exists k :: 0 <= k < |log| && Read(p, log[k], x)
  }

  /** It was queued, is no web page, and is in the section's notes. */
  ghost predicate CameFromQueue(p: Pass, e: Entry, x: string) {
    && x in p.queue && !("web:" <= x)
    && e.section.sectionId in p.notes && Noted(p.notes[e.section.sectionId], x)
  }

  lemma AcceptedInput(p: Pass, prompts: seq<seq<Message>>, log: seq<Entry>, k: nat, x: string)
    requires LogOk(p, prompts, log) && k < |log| && log[k].verdict.Accepted?
    ensures x in log[k].verdict.input <==> Read(p, log[k], x)
    ensures Read(p, log[k], x) ==> CameFromQueue(p, log[k], x)
  {
    hide LogOk, HadAbstract, StoppedFairly, RejectedFairly, PassedFairly, Taken, SaysReply, Acceptable, Noted;
    EntryIsFair(p, prompts, log, k);
  }

  lemma ProcessedWereRead(p: Pass, prompts: seq<seq<Message>>, log: seq<Entry>, x: string)
    requires LogOk(p, prompts, log)
    ensures x in Processed(log) <==> ReadAndAccepted(p, log, x)
  {
    hide LogOk, HadAbstract, CameFromQueue;
    if x in Processed(log) {
      var k :| 0 <= k < |log| && log[k].verdict.Accepted? && x in log[k].verdict.input;
      AcceptedInput(p, prompts, log, k, x);
    }
    if ReadAndAccepted(p, log, x) {
      var k :| 0 <= k < |log| && Read(p, log[k], x);
      AcceptedInput(p, prompts, log, k, x);
    }
  }

  /** The new queue is the old one, in order and with every copy, minus the web pages and
      exactly the papers that had an abstract in an accepted section - all of which had
      come from the queue and from that section's notes. */
  lemma QueueIsConserved(p: Pass, prompts: seq<seq<Message>>, log: seq<Entry>)
    requires LogOk(p, prompts, log)
    ensures var after := Remaining(p.queue, Processed(log));
            && Subsequence(after, p.queue)
            && forall x :: multiset(after)[x] ==
                           if "web:" <= x || ReadAndAccepted(p, log, x) then 0 else multiset(p.queue)[x]
    ensures forall k, x :: 0 <= k < |log| && Read(p, log[k], x) ==> CameFromQueue(p, log[k], x)
  {
    hide LogOk, HadAbstract, ReadAndAccepted, Processed, Remaining, CameFromQueue;
    var processed := Processed(log);
    RemainingKeepsOrder(p.queue, processed);
    var after := Remaining(p.queue, processed);
    forall x
      ensures multiset(after)[x] == if "web:" <= x || ReadAndAccepted(p, log, x) then 0 else multiset(p.queue)[x]
    {
      RemainingCounts(p.queue, processed, x);
      ProcessedWereRead(p, prompts, log, x);
    }
    forall k, x | 0 <= k < |log| && Read(p, log[k], x) ensures CameFromQueue(p, log[k], x) {
      AcceptedInput(p, prompts, log, k, x);
    }
  }

  /** No other section's notes list the paper. */
  ghost predicate OnlyUnder(p: Pass, id: string, x: string) {
    forall other :: other in p.notes && other != id ==> !Noted(p.notes[other], x)
  }

  /** A paper listed under one section only: its fate is that section's, and a rejected or
      unfinished section leaves it in the queue, with every copy. */
  lemma OwnSectionDecides(p: Pass, prompts: seq<seq<Message>>, log: seq<Entry>, id: string, x: string)
    requires LogOk(p, prompts, log) && !("web:" <= x) && OnlyUnder(p, id, x)
    ensures var after := Remaining(p.queue, Processed(log));
            multiset(after)[x] ==
            if exists k :: 0 <= k < |log| && log[k].section.sectionId == id && Read(p, log[k], x) then 0
            else multiset(p.queue)[x]
    ensures (forall k :: 0 <= k < |log| && log[k].section.sectionId == id ==> !log[k].verdict.Accepted?) ==>
              multiset(Remaining(p.queue, Processed(log)))[x] == multiset(p.queue)[x]
  {
    hide LogOk, HadAbstract, Processed, Remaining;
    QueueIsConserved(p, prompts, log);
    if ReadAndAccepted(p, log, x) {
      var k :| 0 <= k < |log| && Read(p, log[k], x);
      assert CameFromQueue(p, log[k], x);
    }
  }

  // ---- The rows -----------------------------------------------------------

  /** The cards addressed to the section. */
  function CardsFor(cards: seq<EvidenceCard>, sectionId: string): seq<EvidenceCard> {
    if cards == [] then []
    else (if cards[0].sectionId == sectionId then [cards[0]] else []) + CardsFor(cards[1..], sectionId)
  }

  function RowFor(c: EvidenceCard, runId: string, sectionId: string, n: nat): EvidenceItem {
    EvidenceItem(EvidenceId(runId, sectionId, n), runId, c.paperId, sectionId, c.claim, c.sourceSpan, None,
                 c.confidence, ResearcherDeep)
  }

  /** The cards as rows, numbered upwards from `n`. */
  function Numbered(cards: seq<EvidenceCard>, runId: string, sectionId: string, n: nat): seq<EvidenceItem> {
    if cards == [] then [] else [RowFor(cards[0], runId, sectionId, n)] + Numbered(cards[1..], runId, sectionId, n + 1)
  }

  lemma {:induction false} NumberedAt(cards: seq<EvidenceCard>, runId: string, sectionId: string, n: nat)
    ensures |Numbered(cards, runId, sectionId, n)| == |cards|
    ensures forall i :: 0 <= i < |cards| ==>
              Numbered(cards, runId, sectionId, n)[i] == RowFor(cards[i], runId, sectionId, n + i)
    decreases |cards|
  {
    hide RowFor;
    if cards != [] { NumberedAt(cards[1..], runId, sectionId, n + 1); }
  }

  /** An accepted section's rows are exactly its cards, in order and numbered from 0; the
      second test on the paper, kept as defence in depth, drops nothing. */
  lemma {:induction false} AcceptedRowsAreTheCards(cards: seq<EvidenceCard>, runId: string, sectionId: string,
                                                   input: set<string>, n: nat)
    requires forall c :: c in cards ==> c.paperId in input
    ensures RowsFrom(cards, runId, sectionId, input, n) == Numbered(CardsFor(cards, sectionId), runId, sectionId, n)
    decreases |cards|
  {
    hide EvidenceId;
    if cards != [] {
      assert cards[0] in cards;
      var mine := cards[0].sectionId == sectionId;
      AcceptedRowsAreTheCards(cards[1..], runId, sectionId, input, if mine then n + 1 else n);
      var rest := CardsFor(cards[1..], sectionId);
      assert ([cards[0]] + rest)[1..] == rest && [] + rest == rest;
    }
  }

  /** An accepted section's i-th row is its i-th card, with number i. */
  lemma AcceptedRowIsItsCard(v: Verdict, runId: string, sectionId: string)
    requires v.Accepted? && Acceptable(v.out, sectionId, v.input)
    ensures var rows, mine := RowsOf(v, runId, sectionId), CardsFor(v.out.evidenceCards, sectionId);
            |rows| == |mine| && forall i :: 0 <= i < |rows| ==> rows[i] == RowFor(mine[i], runId, sectionId, i)
  {
    hide RowFor, RowsFrom, CardsFor;
    AcceptedRowsAreTheCards(v.out.evidenceCards, runId, sectionId, v.input, 0);
    NumberedAt(CardsFor(v.out.evidenceCards, sectionId), runId, sectionId, 0);
  }

  lemma {:induction false} AllMatch(rows: seq<EvidenceItem>, runId: string, sectionId: string, id: string)
    requires forall i :: 0 <= i < |rows| ==> rows[i].runId == runId && rows[i].sectionId == sectionId
    ensures Matching(rows, runId, id) == if id == sectionId then rows else []
  {
    if rows != [] {
      AllMatch(rows[..|rows| - 1], runId, sectionId, id);
      assert rows == rows[..|rows| - 1] + [rows[|rows| - 1]];
    }
  }

  lemma RowsOfMatch(v: Verdict, runId: string, sectionId: string, id: string)
    ensures Matching(RowsOf(v, runId, sectionId), runId, id)
         == if id == sectionId then RowsOf(v, runId, sectionId) else []
  {
    var rows := RowsOf(v, runId, sectionId);
    forall i | 0 <= i < |rows| ensures rows[i].runId == runId && rows[i].sectionId == sectionId {
      RowsFromShape(v.out.evidenceCards, runId, sectionId, v.input, 0, i);
    }
    AllMatch(rows, runId, sectionId, id);
  }

  lemma NoSectionTwice(p: Pass, prompts: seq<seq<Message>>, log: seq<Entry>)
    requires LogOk(p, prompts, log)
    ensures forall j, k :: 0 <= j < k < |log| ==> log[j].section.sectionId != log[k].section.sectionId
  {
    hide Decided, AllRows, TickAfter, InvokedBy;
    forall j, k | 0 <= j < k < |log| ensures log[j].section.sectionId != log[k].section.sectionId {
      assert Follows(p, prompts, log[..k], log[k]);
      assert log[..k][j] == log[j];
    }
  }

  lemma {:induction false} RowsBySection(log: seq<Entry>, runId: string, id: string)
    requires forall j, k :: 0 <= j < k < |log| ==> log[j].section.sectionId != log[k].section.sectionId
    ensures forall k :: 0 <= k < |log| && log[k].section.sectionId == id ==>
              Matching(AllRows(log, runId), runId, id) == RowsOf(log[k].verdict, runId, id)
    ensures (forall k :: 0 <= k < |log| ==> log[k].section.sectionId != id) ==>
              Matching(AllRows(log, runId), runId, id) == []
  {
    hide RowsOf, Matching;
    if log == [] {
      NothingMatches(runId, id);
    } else {
      var n := |log| - 1;
      var e := log[n];
      RowsBySection(log[..n], runId, id);
      MatchingConcat(AllRows(log[..n], runId), RowsOf(e.verdict, runId, e.section.sectionId), runId, id);
      RowsOfMatch(e.verdict, runId, e.section.sectionId, id);
      if e.section.sectionId == id {
        assert forall k :: 0 <= k < n ==> log[..n][k].section.sectionId != id;
      } else {
        forall k | 0 <= k < |log| && log[k].section.sectionId == id
          ensures Matching(AllRows(log, runId), runId, id) == RowsOf(log[k].verdict, runId, id)
        {
          assert log[..n][k] == log[k];
        }
      }
    }
  }

  lemma NothingMatches(runId: string, id: string)
    ensures Matching([], runId, id) == []
  {
  }

  /** All or nothing: what the pass adds under a section is exactly what its one entry
      stands for - its cards if accepted, nothing otherwise - and a section without an
      entry gains nothing. */
  lemma SectionGainsItsOwnRows(p: Pass, prompts: seq<seq<Message>>, log: seq<Entry>, id: string)
    requires LogOk(p, prompts, log)
    ensures forall k :: 0 <= k < |log| && log[k].section.sectionId == id ==>
              Matching(AllRows(log, p.runId), p.runId, id) == RowsOf(log[k].verdict, p.runId, id)
    ensures !Visited(log, id) ==> Matching(AllRows(log, p.runId), p.runId, id) == []
  {
    hide RowsOf, Matching, LogOk, AllRows;
    NoSectionTwice(p, prompts, log);
    RowsBySection(log, p.runId, id);
  }

  /** Numbering restarts in every pass, so uniqueness is a one-pass property: once a
      section has rows, a second acceptance of it with any card cannot be stored. */
  lemma SecondAcceptanceConflicts(rows: seq<EvidenceItem>, first: Verdict, second: Verdict, runId: string,
                                  sectionId: string)
    requires RowsOf(first, runId, sectionId) != [] && RowsOf(second, runId, sectionId) != []
    requires forall x :: x in RowsOf(first, runId, sectionId) ==> x in rows
    ensures Conflicts(rows, runId, sectionId, |RowsOf(second, runId, sectionId)|)
  {
    RowsFromShape(first.out.evidenceCards, runId, sectionId, first.input, 0, 0);
    assert HasId(rows, EvidenceId(runId, sectionId, 0));
  }
}
