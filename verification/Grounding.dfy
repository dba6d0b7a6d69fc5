/** The six-layer referential-integrity check on a synthesis (synthesis/synthesizer.py,
    _validate_grounding). */
module Grounding {
  import opened Prelude
  import opened Schemas

  /** What the output is checked against. */
  datatype Inputs = Inputs(paperIds: set<string>, evidenceIds: set<string>, paperOf: map<string, string>,
                           sectionId: string)

  /** The first layer that fails, in the order of the checks. */
  datatype Violation =
    | SectionMismatch | RoguePaper | RogueEvidence
    | FactsFromOtherPaper | CellFromOtherPaper | SynthesisUncovered | ClaimFromOtherPaper
    | UnbackedCategory
    | PapersCitedDiffer | FactsMissing | RowsMissing

  // ---- The layers, declaratively ------------------------------------------

  /** Evidence `e` is known to come from paper `p`. */
  predicate Backs(inp: Inputs, e: string, p: string) {
    e in inp.paperOf && inp.paperOf[e] == p
  }

  ghost predicate PapersKnown(out: SynthesizerOutput, inp: Inputs) {
    && (forall p :: p in out.papersCited ==> p in inp.paperIds)
    && (forall c :: c in out.claims ==> c.paperId in inp.paperIds)
    && (forall f :: f in out.paperFacts ==> f.paperId in inp.paperIds)
    && (forall r :: r in out.matrix.rows ==> r.paperId in inp.paperIds)
    && (forall c, p :: c in out.categories && p in c.paperIds ==> p in inp.paperIds)
    && (forall s, p :: s in out.synthesis && p in s.paperIds ==> p in inp.paperIds)
  }

  ghost predicate EvidenceKnown(out: SynthesizerOutput, inp: Inputs) {
    && (forall c :: c in out.claims ==> c.evidenceId in inp.evidenceIds)
    && (forall f, e :: f in out.paperFacts && e in f.evidenceIds ==> e in inp.evidenceIds)
    && (forall r, d, e :: r in out.matrix.rows && d in r.cells && e in r.cells[d].evidenceIds ==> e in inp.evidenceIds)
    && (forall c, e :: c in out.categories && e in c.rationaleEvidenceIds ==> e in inp.evidenceIds)
    && (forall s, e :: s in out.synthesis && e in s.evidenceIds ==> e in inp.evidenceIds)
  }

  ghost predicate FactsConsistent(out: SynthesizerOutput, inp: Inputs) {
    forall f, e :: f in out.paperFacts && e in f.evidenceIds ==> Backs(inp, e, f.paperId)
  }

  ghost predicate CellsConsistent(out: SynthesizerOutput, inp: Inputs) {
    forall r, d, e :: r in out.matrix.rows && d in r.cells && e in r.cells[d].evidenceIds ==> Backs(inp, e, r.paperId)
  }

  /** The evidence comes from the supporting papers, and every one of them is covered. */
  ghost predicate Supported(s: SynthesisClaim, inp: Inputs) {
    && (forall e :: e in s.evidenceIds ==> e in inp.paperOf && inp.paperOf[e] in s.paperIds)
    && (forall p :: p in s.paperIds ==> exists e :: e in s.evidenceIds && Backs(inp, e, p))
  }

  ghost predicate SynthesisSupported(out: SynthesizerOutput, inp: Inputs) {
    forall s :: s in out.synthesis ==> Supported(s, inp)
  }

  ghost predicate ClaimsConsistent(out: SynthesizerOutput, inp: Inputs) {
    forall c :: c in out.claims ==> Backs(inp, c.evidenceId, c.paperId)
  }

  ghost predicate CategoriesBacked(out: SynthesizerOutput) {
    forall c :: c in out.categories ==> c.paperIds == [] || c.rationaleEvidenceIds != []
  }

  ghost predicate HasFacts(out: SynthesizerOutput, p: string) {
    exists f :: f in out.paperFacts && f.paperId == p
  }

  ghost predicate HasRow(out: SynthesizerOutput, p: string) {
    exists r :: r in out.matrix.rows && r.paperId == p
  }

  ghost predicate Grounded(out: SynthesizerOutput, inp: Inputs) {
    && out.sectionId == inp.sectionId
    && PapersKnown(out, inp) && EvidenceKnown(out, inp)
    && FactsConsistent(out, inp) && CellsConsistent(out, inp)
    && SynthesisSupported(out, inp) && ClaimsConsistent(out, inp)
    && CategoriesBacked(out)
    && (inp.paperIds != {} ==>
          && Elems(out.papersCited) == inp.paperIds
          && (forall p :: p in inp.paperIds ==> HasFacts(out, p))
          && (forall p :: p in inp.paperIds ==> HasRow(out, p)))
  }

  /** The layer a rejection names is the first that does not hold. */
  ghost function FirstViolation(out: SynthesizerOutput, inp: Inputs): Option<Violation> {
    if out.sectionId != inp.sectionId then Some(SectionMismatch)
    else if !PapersKnown(out, inp) then Some(RoguePaper)
    else if !EvidenceKnown(out, inp) then Some(RogueEvidence)
    else if !FactsConsistent(out, inp) then Some(FactsFromOtherPaper)
    else if !CellsConsistent(out, inp) then Some(CellFromOtherPaper)
    else if !SynthesisSupported(out, inp) then Some(SynthesisUncovered)
    else if !ClaimsConsistent(out, inp) then Some(ClaimFromOtherPaper)
    else if !CategoriesBacked(out) then Some(UnbackedCategory)
    else if inp.paperIds == {} then None
    else if Elems(out.papersCited) != inp.paperIds then Some(PapersCitedDiffer)
    else if !(forall p :: p in inp.paperIds ==> HasFacts(out, p)) then Some(FactsMissing)
    else if !(forall p :: p in inp.paperIds ==> HasRow(out, p)) then Some(RowsMissing)
    else None
  }

  // ---- The checker --------------------------------------------------------

  method CollectPapers(out: SynthesizerOutput) returns (ids: set<string>)
    ensures forall inp: Inputs :: ids <= inp.paperIds <==> PapersKnown(out, inp)
  {
    var direct := Elems(out.papersCited) + (set c | c in out.claims :: c.paperId)
                  + (set f | f in out.paperFacts :: f.paperId) + (set r | r in out.matrix.rows :: r.paperId);
    var fromCategories: set<string> := {};
    for i := 0 to |out.categories|
      invariant forall p :: p in fromCategories <==> exists c :: c in out.categories[..i] && p in c.paperIds
    {
      fromCategories := fromCategories + Elems(out.categories[i].paperIds);
      assert out.categories[..i + 1] == out.categories[..i] + [out.categories[i]];
    }
    var fromSynthesis: set<string> := {};
    for i := 0 to |out.synthesis|
      invariant forall p :: p in fromSynthesis <==> exists s :: s in out.synthesis[..i] && p in s.paperIds
    {
      fromSynthesis := fromSynthesis + Elems(out.synthesis[i].paperIds);
      assert out.synthesis[..i + 1] == out.synthesis[..i] + [out.synthesis[i]];
    }
    assert out.categories[..|out.categories|] == out.categories && out.synthesis[..|out.synthesis|] == out.synthesis;
    ids := direct + fromCategories + fromSynthesis;
    forall inp: Inputs ensures ids <= inp.paperIds <==> PapersKnown(out, inp) {
      if ids <= inp.paperIds {
        forall c | c in out.claims ensures c.paperId in inp.paperIds { assert c.paperId in ids; }
        forall f | f in out.paperFacts ensures f.paperId in inp.paperIds { assert f.paperId in ids; }
        forall r | r in out.matrix.rows ensures r.paperId in inp.paperIds { assert r.paperId in ids; }
        forall p | p in out.papersCited ensures p in inp.paperIds { assert p in ids; }
      }
    }
  }

  method CellEvidence(row: MatrixRow) returns (ids: set<string>)
    ensures forall e :: e in ids <==> exists d :: d in row.cells && e in row.cells[d].evidenceIds
  {
    ids := {};
    var left := row.cells.Keys;
    while left != {}
      invariant left <= row.cells.Keys
      invariant forall e :: e in ids <==> exists d :: d in row.cells && d !in left && e in row.cells[d].evidenceIds
      decreases |left|
    {
      var d :| d in left;
      left := left - {d};
      ids := ids + Elems(row.cells[d].evidenceIds);
    }
  }

  method CollectEvidence(out: SynthesizerOutput) returns (ids: set<string>)
    ensures forall inp: Inputs :: ids <= inp.evidenceIds <==> EvidenceKnown(out, inp)
  {
    var fromClaims := set c | c in out.claims :: c.evidenceId;
    var fromFacts: set<string> := {};
    for i := 0 to |out.paperFacts|
      invariant forall e :: e in fromFacts <==> exists f :: f in out.paperFacts[..i] && e in f.evidenceIds
    {
      fromFacts := fromFacts + Elems(out.paperFacts[i].evidenceIds);
      assert out.paperFacts[..i + 1] == out.paperFacts[..i] + [out.paperFacts[i]];
    }
    var fromCells: set<string> := {};
    for i := 0 to |out.matrix.rows|
      invariant forall e :: e in fromCells <==>
        exists r, d :: r in out.matrix.rows[..i] && d in r.cells && e in r.cells[d].evidenceIds
    {
      var cellIds := CellEvidence(out.matrix.rows[i]);
      fromCells := fromCells + cellIds;
      assert out.matrix.rows[..i + 1] == out.matrix.rows[..i] + [out.matrix.rows[i]];
    }
    var fromCategories: set<string> := {};
    for i := 0 to |out.categories|
      invariant forall e :: e in fromCategories <==> exists c :: c in out.categories[..i] && e in c.rationaleEvidenceIds
    {
      fromCategories := fromCategories + Elems(out.categories[i].rationaleEvidenceIds);
      assert out.categories[..i + 1] == out.categories[..i] + [out.categories[i]];
    }
    var fromSynthesis: set<string> := {};
    for i := 0 to |out.synthesis|
      invariant forall e :: e in fromSynthesis <==> exists s :: s in out.synthesis[..i] && e in s.evidenceIds
    {
      fromSynthesis := fromSynthesis + Elems(out.synthesis[i].evidenceIds);
      assert out.synthesis[..i + 1] == out.synthesis[..i] + [out.synthesis[i]];
    }
    assert out.paperFacts[..|out.paperFacts|] == out.paperFacts
           && out.matrix.rows[..|out.matrix.rows|] == out.matrix.rows;
    assert out.categories[..|out.categories|] == out.categories && out.synthesis[..|out.synthesis|] == out.synthesis;
    ids := fromClaims + fromFacts + fromCells + fromCategories + fromSynthesis;
    forall inp: Inputs ensures ids <= inp.evidenceIds <==> EvidenceKnown(out, inp) {
      if ids <= inp.evidenceIds {
        forall c | c in out.claims ensures c.evidenceId in inp.evidenceIds { assert c.evidenceId in ids; }
      }
    }
  }

  /** Layer 3a's inner loop, used for 3b as well: all the ids belong to the paper. */
  method AllBacking(ids: seq<string>, p: string, inp: Inputs) returns (ok: bool)
    ensures ok <==> forall e :: e in ids ==> Backs(inp, e, p)
  {
    for i := 0 to |ids|
      invariant forall e :: e in ids[..i] ==> Backs(inp, e, p)
    {
      if !Backs(inp, ids[i], p) { return false; }
      assert ids[..i + 1] == ids[..i] + [ids[i]];
    }
    assert ids[..|ids|] == ids;
    ok := true;
  }

  method CellsBacking(row: MatrixRow, inp: Inputs) returns (ok: bool)
    ensures ok <==> forall d, e :: d in row.cells && e in row.cells[d].evidenceIds ==> Backs(inp, e, row.paperId)
  {
    var left := row.cells.Keys;
    while left != {}
      invariant left <= row.cells.Keys
      invariant forall d, e :: d in row.cells && d !in left && e in row.cells[d].evidenceIds ==>
                  Backs(inp, e, row.paperId)
      decreases |left|
    {
      var d :| d in left;
      var cellOk := AllBacking(row.cells[d].evidenceIds, row.paperId, inp);
      if !cellOk { return false; }
      left := left - {d};
    }
    ok := true;
  }

  /** Layers 3c and 3d for one synthesis claim. */
  method SupportedBy(s: SynthesisClaim, inp: Inputs) returns (ok: bool)
    ensures ok <==> Supported(s, inp)
  {
    var covered: set<string> := {};
    for i := 0 to |s.evidenceIds|
      invariant forall e :: e in s.evidenceIds[..i] ==> e in inp.paperOf && inp.paperOf[e] in s.paperIds
      invariant forall p :: p in covered <==> exists e :: e in s.evidenceIds[..i] && Backs(inp, e, p)
    {
      var e := s.evidenceIds[i];
      if e !in inp.paperOf || inp.paperOf[e] !in s.paperIds { return false; }
      ghost var before := covered;
      covered := covered + {inp.paperOf[e]};
      assert s.evidenceIds[..i + 1] == s.evidenceIds[..i] + [e];
      forall p ensures p in covered <==> exists e' :: e' in s.evidenceIds[..i + 1] && Backs(inp, e', p) {
        if p in before {
          var e' :| e' in s.evidenceIds[..i] && Backs(inp, e', p);
          assert e' in s.evidenceIds[..i + 1];
        } else if p == inp.paperOf[e] {
          assert e in s.evidenceIds[..i + 1] && Backs(inp, e, p);
        }
      }
    }
    assert s.evidenceIds[..|s.evidenceIds|] == s.evidenceIds;
    ok := Elems(s.paperIds) <= covered;
    assert forall p :: p in Elems(s.paperIds) <==> p in s.paperIds;
  }

  method FactsOk(out: SynthesizerOutput, inp: Inputs) returns (ok: bool)
    ensures ok <==> FactsConsistent(out, inp)
  {
    for i := 0 to |out.paperFacts|
      invariant forall f, e :: f in out.paperFacts[..i] && e in f.evidenceIds ==> Backs(inp, e, f.paperId)
    {
      var factOk := AllBacking(out.paperFacts[i].evidenceIds, out.paperFacts[i].paperId, inp);
      if !factOk { return false; }
      assert out.paperFacts[..i + 1] == out.paperFacts[..i] + [out.paperFacts[i]];
    }
    assert out.paperFacts[..|out.paperFacts|] == out.paperFacts;
    ok := true;
  }

  method CellsOk(out: SynthesizerOutput, inp: Inputs) returns (ok: bool)
    ensures ok <==> CellsConsistent(out, inp)
  {
    var rows := out.matrix.rows;
    for i := 0 to |rows|
      invariant forall r, d, e :: r in rows[..i] && d in r.cells && e in r.cells[d].evidenceIds ==>
                  Backs(inp, e, r.paperId)
    {
      var rowOk := CellsBacking(rows[i], inp);
      if !rowOk { return false; }
      assert rows[..i + 1] == rows[..i] + [rows[i]];
    }
    assert rows[..|rows|] == rows;
    ok := true;
  }

  method SynthesisOk(out: SynthesizerOutput, inp: Inputs) returns (ok: bool)
    ensures ok <==> SynthesisSupported(out, inp)
  {
    for i := 0 to |out.synthesis|
      invariant forall s :: s in out.synthesis[..i] ==> Supported(s, inp)
    {
      var claimOk := SupportedBy(out.synthesis[i], inp);
      if !claimOk { return false; }
      assert out.synthesis[..i + 1] == out.synthesis[..i] + [out.synthesis[i]];
    }
    assert out.synthesis[..|out.synthesis|] == out.synthesis;
    ok := true;
  }

  method ClaimsOk(out: SynthesizerOutput, inp: Inputs) returns (ok: bool)
    ensures ok <==> ClaimsConsistent(out, inp)
  {
    for i := 0 to |out.claims|
      invariant forall c :: c in out.claims[..i] ==> Backs(inp, c.evidenceId, c.paperId)
    {
      if !Backs(inp, out.claims[i].evidenceId, out.claims[i].paperId) { return false; }
      assert out.claims[..i + 1] == out.claims[..i] + [out.claims[i]];
    }
    assert out.claims[..|out.claims|] == out.claims;
    ok := true;
  }

  method CategoriesOk(out: SynthesizerOutput) returns (ok: bool)
    ensures ok <==> CategoriesBacked(out)
  {
    for i := 0 to |out.categories|
      invariant forall c :: c in out.categories[..i] ==> c.paperIds == [] || c.rationaleEvidenceIds != []
    {
      if out.categories[i].paperIds != [] && out.categories[i].rationaleEvidenceIds == [] { return false; }
      assert out.categories[..i + 1] == out.categories[..i] + [out.categories[i]];
    }
    assert out.categories[..|out.categories|] == out.categories;
    ok := true;
  }

  lemma NothingLeft(a: set<string>, b: set<string>)
    ensures a - b == {} <==> a <= b
  {
    if a - b == {} {
      forall x | x in a ensures x in b { assert x !in a - b; }
    }
  }

  /** Sound and complete: None exactly for grounded output, and otherwise the layer at
      which the original raises. */
  method ValidateGrounding(out: SynthesizerOutput, inp: Inputs) returns (r: Option<Violation>)
    ensures r == FirstViolation(out, inp)
    ensures r.None? <==> Grounded(out, inp)
  {
    hide PapersKnown, EvidenceKnown, FactsConsistent, CellsConsistent, SynthesisSupported, ClaimsConsistent,
         CategoriesBacked;
    if out.sectionId != inp.sectionId { return Some(SectionMismatch); }
    var papers := CollectPapers(out);
    NothingLeft(papers, inp.paperIds);
    if papers - inp.paperIds != {} { return Some(RoguePaper); }
    var evidence := CollectEvidence(out);
    NothingLeft(evidence, inp.evidenceIds);
    if evidence - inp.evidenceIds != {} { return Some(RogueEvidence); }
    var ok := FactsOk(out, inp);
    if !ok { return Some(FactsFromOtherPaper); }
    ok := CellsOk(out, inp);
    if !ok { return Some(CellFromOtherPaper); }
    ok := SynthesisOk(out, inp);
    if !ok { return Some(SynthesisUncovered); }
    ok := ClaimsOk(out, inp);
    if !ok { return Some(ClaimFromOtherPaper); }
    ok := CategoriesOk(out);
    if !ok { return Some(UnbackedCategory); }
    if inp.paperIds != {} {
      if Elems(out.papersCited) != inp.paperIds { return Some(PapersCitedDiffer); }
      var withFacts := set f | f in out.paperFacts :: f.paperId;
      forall p ensures p in withFacts <==> HasFacts(out, p) {}
      NothingLeft(inp.paperIds, withFacts);
      if inp.paperIds - withFacts != {} { return Some(FactsMissing); }
      var withRow := set row | row in out.matrix.rows :: row.paperId;
      forall p ensures p in withRow <==> HasRow(out, p) {}
      NothingLeft(inp.paperIds, withRow);
      if inp.paperIds - withRow != {} { return Some(RowsMissing); }
    }
    r := None;
  }

  // ---- What acceptance means ----------------------------------------------

  /** With some evidence to work on, the papers cited, the papers with facts and the
      papers with a matrix row are each exactly the input papers. */
  lemma AcceptedCoversExactlyTheInput(out: SynthesizerOutput, inp: Inputs)
    requires Grounded(out, inp) && inp.paperIds != {}
    ensures Elems(out.papersCited) == inp.paperIds
    ensures (set f | f in out.paperFacts :: f.paperId) == inp.paperIds
    ensures (set r | r in out.matrix.rows :: r.paperId) == inp.paperIds
  {
    forall p ensures p in (set f | f in out.paperFacts :: f.paperId) <==> p in inp.paperIds {
      if p in inp.paperIds { assert HasFacts(out, p); }
    }
    forall p ensures p in (set r | r in out.matrix.rows :: r.paperId) <==> p in inp.paperIds {
      if p in inp.paperIds { assert HasRow(out, p); }
    }
  }

  lemma {:induction false} ImageIsNoLarger(dom: set<string>, f: map<string, string>)
    requires dom <= f.Keys
    ensures |set e | e in dom :: f[e]| <= |dom|
    decreases |dom|
  {
    if dom != {} {
      var e :| e in dom;
      var rest := dom - {e};
      ImageIsNoLarger(rest, f);
      assert (set x | x in dom :: f[x]) == (set x | x in rest :: f[x]) + {f[e]};
    }
  }

  /** The papers behind a synthesis claim's evidence are exactly its supporting papers,
      so it cites at least as many distinct evidence ids as distinct papers. */
  lemma SynthesisEvidenceCoversItsPapers(out: SynthesizerOutput, inp: Inputs, s: SynthesisClaim)
    requires Grounded(out, inp) && s in out.synthesis
    ensures Elems(s.evidenceIds) <= inp.paperOf.Keys
    ensures (set e | e in Elems(s.evidenceIds) :: inp.paperOf[e]) == Elems(s.paperIds)
    ensures |Elems(s.evidenceIds)| >= |Elems(s.paperIds)|
  {
    assert Supported(s, inp);
    var ids := Elems(s.evidenceIds);
    assert forall e :: e in ids <==> e in s.evidenceIds;
    var papers := set e | e in ids :: inp.paperOf[e];
    forall p ensures p in papers <==> p in Elems(s.paperIds) {
      if p in s.paperIds {
        var e :| e in s.evidenceIds && Backs(inp, e, p);
        assert e in ids;
      }
    }
    assert papers == Elems(s.paperIds);
    ImageIsNoLarger(ids, inp.paperOf);
  }

  /** More evidence for the same papers never turns an accepted output into a rejected
      one. */
  lemma AcceptanceSurvivesMoreEvidence(out: SynthesizerOutput, inp: Inputs, more: Inputs)
    requires Grounded(out, inp)
    requires more.paperIds == inp.paperIds && more.sectionId == inp.sectionId && inp.evidenceIds <= more.evidenceIds
    requires forall e :: e in inp.paperOf ==> e in more.paperOf && more.paperOf[e] == inp.paperOf[e]
    ensures Grounded(out, more)
  {
    hide PapersKnown, HasFacts, HasRow, CategoriesBacked, Supported;
    EvidenceStaysKnown(out, inp, more);
    PapersStayKnown(out, inp, more);
    assert forall e, p :: Backs(inp, e, p) ==> Backs(more, e, p);
    forall s | s in out.synthesis ensures Supported(s, more) {
      SupportStays(s, inp, more);
    }
  }

  lemma EvidenceStaysKnown(out: SynthesizerOutput, inp: Inputs, more: Inputs)
    requires EvidenceKnown(out, inp) && inp.evidenceIds <= more.evidenceIds
    ensures EvidenceKnown(out, more)
  {
  }

  lemma PapersStayKnown(out: SynthesizerOutput, inp: Inputs, more: Inputs)
    requires PapersKnown(out, inp) && more.paperIds == inp.paperIds
    ensures PapersKnown(out, more)
  {
  }

  lemma SupportStays(s: SynthesisClaim, inp: Inputs, more: Inputs)
    requires Supported(s, inp)
    requires forall e, p :: Backs(inp, e, p) ==> Backs(more, e, p)
    ensures Supported(s, more)
  {
    forall e | e in s.evidenceIds ensures e in more.paperOf && more.paperOf[e] in s.paperIds {
      assert Backs(inp, e, inp.paperOf[e]);
      assert Backs(more, e, inp.paperOf[e]);
    }
    hide Backs;
    forall p | p in s.paperIds ensures exists e :: e in s.evidenceIds && Backs(more, e, p) {
      var e :| e in s.evidenceIds && Backs(inp, e, p);
      assert Backs(more, e, p);
    }
  }
}
