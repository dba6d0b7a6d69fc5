/** The stub Writer (writing/stub.py): a section draft as lines, with the citation marks
    kept as structure instead of bracketed text. */
module Writer {
  import opened Prelude
  import opened Schemas

  /** A line of prose, or one that ends in citation marks. */
  datatype Line = Text(text: string) | Cited(text: string, marks: seq<string>)

  function Join(parts: seq<string>, separator: string): string {
    if parts == [] then ""
    else if |parts| == 1 then parts[0]
    else Join(parts[..|parts| - 1], separator) + separator + parts[|parts| - 1]
  }

  function CellText(row: MatrixRow, dimension: string): string {
    if dimension in row.cells then row.cells[dimension].value else ""
  }

  function CellTexts(row: MatrixRow, dimensions: seq<string>): seq<string> {
    seq(|dimensions|, i requires 0 <= i < |dimensions| => CellText(row, dimensions[i]))
  }

  /** Every cell text is the row's value for its dimension, and empty without one. */
  lemma CellsByDimension(row: MatrixRow, dimensions: seq<string>, i: nat)
    requires i < |dimensions|
    ensures |CellTexts(row, dimensions)| == |dimensions|
    ensures dimensions[i] in row.cells ==> CellTexts(row, dimensions)[i] == row.cells[dimensions[i]].value
    ensures dimensions[i] !in row.cells ==> CellTexts(row, dimensions)[i] == ""
  {
  }

  /** Joined text holds the parts in order, with the separator between neighbours. */
  lemma {:induction false} JoinKeepsOrder(parts: seq<string>, separator: string, k: nat)
    requires k < |parts|
    ensures k == 0 ==> parts[0] <= Join(parts, separator)
    ensures k > 0 ==> Join(parts[..k], separator) + separator + parts[k] <= Join(parts, separator)
    ensures k == |parts| - 1 && k > 0 ==> Join(parts, separator) == Join(parts[..k], separator) + separator + parts[k]
    decreases |parts|
  {
    var n := |parts| - 1;
    if k < n {
      assert parts[..n][..k] == parts[..k];
      JoinKeepsOrder(parts[..n], separator, k);
      assert Join(parts[..n], separator) <= Join(parts, separator);
    }
  }

  function Rule(n: nat): string {
    if n == 0 then "|" else Rule(n - 1) + " --- |"
  }

  method RuleRow(n: nat) returns (s: string)
    ensures s == Rule(n)
  {
    s := "|";
    for i := 0 to n
      invariant s == Rule(i)
    {
      s := s + " --- |";
    }
  }

  // ---- The layout of a draft ----------------------------------------------

  function ClaimPart(claims: seq<ClaimRef>): seq<Line> {
    if claims == [] then [Text("_No evidence available for this section._")]
    else seq(|claims|, i requires 0 <= i < |claims| => Cited("- " + claims[i].claim, [claims[i].evidenceId]))
  }

  function SynthesisPairs(claims: seq<SynthesisClaim>): seq<Line> {
    if claims == [] then []
    else
      var last := claims[|claims| - 1];
      SynthesisPairs(claims[..|claims| - 1]) + [Cited("_" + last.claimText + "_ ", last.evidenceIds), Text("")]
  }

  function SynthesisPart(claims: seq<SynthesisClaim>): seq<Line> {
    if claims == [] then [] else [Text(""), Text("### Cross-paper synthesis"), Text("")] + SynthesisPairs(claims)
  }

  function RowLine(row: MatrixRow, dims: seq<string>): Line {
    Text("| " + row.paperId + " | " + Join(CellTexts(row, dims), " | ") + " |")
  }

  function MatrixPart(m: ComparisonMatrix): seq<Line> {
    if m.rows == [] || m.dimensions == [] then []
    else
      [Text(""), Text("### Comparison matrix"), Text(""), Text("| paper_id | " + Join(m.dimensions, " | ") + " |"),
       Text(Rule(|m.dimensions| + 1))]
      + seq(|m.rows|, i requires 0 <= i < |m.rows| => RowLine(m.rows[i], m.dimensions))
  }

  function CategoryLine(c: TaxonomyCategory): Line {
    Text("- **" + c.name + "**: " + c.description + " (" + Join(c.paperIds, ", ") + ")")
  }

  function CategoryPart(categories: seq<TaxonomyCategory>): seq<Line> {
    if categories == [] then []
    else
      [Text(""), Text("### Categories"), Text("")]
      + seq(|categories|, i requires 0 <= i < |categories| => CategoryLine(categories[i]))
  }

  function GapLine(g: CoverageGap): Line {
    Text("- " + g.item + " (" + g.reason + "): " + g.description)
  }

  function GapPart(gaps: seq<CoverageGap>): seq<Line> {
    if gaps == [] then []
    else
      [Text(""), Text("### Coverage gaps"), Text("")]
      + seq(|gaps|, i requires 0 <= i < |gaps| => GapLine(gaps[i]))
  }

  function PlainPart(out: SynthesizerOutput): seq<Line> {
    MatrixPart(out.matrix) + CategoryPart(out.categories) + GapPart(out.coverageGaps)
  }

  /** The whole draft, line by line. */
  function Layout(section: PlannerSection, extract: Option<SynthesizerOutput>): seq<Line> {
    [Text("## " + section.title), Text("")]
    + match extract
      case None => ClaimPart([])
      case Some(out) => ClaimPart(out.claims) + SynthesisPart(out.synthesis) + PlainPart(out)
  }

  /** The ids cited by the lines, in order. */
  function MarksOf(lines: seq<Line>): seq<string> {
    if lines == [] then []
    else
      var last := lines[|lines| - 1];
      MarksOf(lines[..|lines| - 1]) + if last.Cited? then last.marks else []
  }

  function ClaimMarks(claims: seq<ClaimRef>): seq<string> {
    seq(|claims|, i requires 0 <= i < |claims| => claims[i].evidenceId)
  }

  function SynthesisMarks(claims: seq<SynthesisClaim>): seq<string> {
    if claims == [] then []
    else SynthesisMarks(claims[..|claims| - 1]) + claims[|claims| - 1].evidenceIds
  }

  /** Everything an extract cites in its claims and cross-paper synthesis. */
  function CitedBy(out: SynthesizerOutput): seq<string> {
    ClaimMarks(out.claims) + SynthesisMarks(out.synthesis)
  }

  lemma MarksAppend(lines: seq<Line>, line: Line)
    ensures MarksOf(lines + [line]) == MarksOf(lines) + if line.Cited? then line.marks else []
  {
    assert (lines + [line])[..|lines|] == lines;
  }

  lemma {:induction false} PlainLinesCiteNothing(lines: seq<Line>, more: seq<Line>)
    requires forall i :: 0 <= i < |more| ==> more[i].Text?
    ensures MarksOf(lines + more) == MarksOf(lines)
    decreases |more|
  {
    if more == [] {
      assert lines + more == lines;
    } else {
      var n := |more| - 1;
      PlainLinesCiteNothing(lines, more[..n]);
      assert lines + more == (lines + more[..n]) + [more[n]];
      MarksAppend(lines + more[..n], more[n]);
    }
  }

  method ClaimLines(lines: seq<Line>, claims: seq<ClaimRef>) returns (r: seq<Line>)
    ensures MarksOf(r) == MarksOf(lines) + ClaimMarks(claims) && lines <= r
    ensures r == lines + ClaimPart(claims)
  {
    r := lines;
    if claims == [] {
      r := r + [Text("_No evidence available for this section._")];
      MarksAppend(lines, r[|lines|]);
      return;
    }
    for i := 0 to |claims|
      invariant lines <= r && |r| == |lines| + i
      invariant MarksOf(r) == MarksOf(lines) + ClaimMarks(claims)[..i]
      invariant forall k :: 0 <= k < i ==> r[|lines| + k] == Cited("- " + claims[k].claim, [claims[k].evidenceId])
    {
      var line := Cited("- " + claims[i].claim, [claims[i].evidenceId]);
      MarksAppend(r, line);
      assert ClaimMarks(claims)[..i + 1] == ClaimMarks(claims)[..i] + [claims[i].evidenceId];
      r := r + [line];
    }
  }

  lemma SynthesisMarksAppend(claims: seq<SynthesisClaim>, i: nat)
    requires i < |claims|
    ensures SynthesisMarks(claims[..i + 1]) == SynthesisMarks(claims[..i]) + claims[i].evidenceIds
  {
    assert claims[..i + 1][..i] == claims[..i];
  }

  method SynthesisLines(lines: seq<Line>, claims: seq<SynthesisClaim>) returns (r: seq<Line>)
    ensures MarksOf(r) == MarksOf(lines) + SynthesisMarks(claims)
    ensures r == lines + SynthesisPart(claims)
  {
    hide MarksOf;
    r := lines;
    if claims == [] { return; }
    var heading := [Text(""), Text("### Cross-paper synthesis"), Text("")];
    PlainLinesCiteNothing(lines, heading);
    r := r + heading;
    for i := 0 to |claims|
      invariant MarksOf(r) == MarksOf(lines) + SynthesisMarks(claims[..i])
      invariant r == lines + heading + SynthesisPairs(claims[..i])
    {
      var line := Cited("_" + claims[i].claimText + "_ ", claims[i].evidenceIds);
      MarksAppend(r, line);
      MarksAppend(r + [line], Text(""));
      SynthesisMarksAppend(claims, i);
      assert claims[..i + 1][..i] == claims[..i];
      r := r + [line];
      r := r + [Text("")];
    }
    assert claims[..|claims|] == claims;
  }

  method MatrixLines(m: ComparisonMatrix) returns (r: seq<Line>)
    ensures r == MatrixPart(m)
  {
    hide Join, CellTexts;
    r := [];
    var rows, dims := m.rows, m.dimensions;
    if rows != [] && dims != [] {
      var rule := RuleRow(|dims| + 1);
      var heading := [Text(""), Text("### Comparison matrix"), Text(""),
                      Text("| paper_id | " + Join(dims, " | ") + " |"), Text(rule)];
      r := heading;
      for i := 0 to |rows|
        invariant |r| == 5 + i && heading <= r && forall k :: 0 <= k < i ==> r[5 + k] == RowLine(rows[k], dims)
      {
        r := r + [Text("| " + rows[i].paperId + " | " + Join(CellTexts(rows[i], dims), " | ") + " |")];
      }
    }
  }

  method CategoryLines(categories: seq<TaxonomyCategory>) returns (r: seq<Line>)
    ensures r == CategoryPart(categories)
  {
    hide Join;
    r := [];
    if categories != [] {
      var heading := [Text(""), Text("### Categories"), Text("")];
      r := heading;
      for i := 0 to |categories|
        invariant |r| == 3 + i && heading <= r && forall k :: 0 <= k < i ==> r[3 + k] == CategoryLine(categories[k])
      {
        var c := categories[i];
        r := r + [Text("- **" + c.name + "**: " + c.description + " (" + Join(c.paperIds, ", ") + ")")];
      }
    }
  }

  method GapLines(gaps: seq<CoverageGap>) returns (r: seq<Line>)
    ensures r == GapPart(gaps)
  {
    r := [];
    if gaps != [] {
      var heading := [Text(""), Text("### Coverage gaps"), Text("")];
      r := heading;
      for i := 0 to |gaps|
        invariant |r| == 3 + i && heading <= r && forall k :: 0 <= k < i ==> r[3 + k] == GapLine(gaps[k])
      {
        var g := gaps[i];
        r := r + [Text("- " + g.item + " (" + g.reason + "): " + g.description)];
      }
    }
  }

  /** Matrix, taxonomy and gaps, none of which carries a mark. */
  method PlainSections(out: SynthesizerOutput) returns (r: seq<Line>)
    ensures r == PlainPart(out) && forall i :: 0 <= i < |r| ==> r[i].Text?
  {
    var matrix := MatrixLines(out.matrix);
    var categories := CategoryLines(out.categories);
    var gaps := GapLines(out.coverageGaps);
    r := matrix + categories + gaps;
  }

  /** A draft has its layout, and cites exactly what its extract cites, in order; without
      an extract it cites nothing. */
  method WriteSection(section: PlannerSection, extract: Option<SynthesizerOutput>) returns (lines: seq<Line>)
    ensures MarksOf(lines) == match extract case Some(out) => CitedBy(out) case None => []
    ensures lines == Layout(section, extract)
  {
    hide ClaimPart, SynthesisPart, PlainPart, MarksOf, ClaimMarks, SynthesisMarks;
    lines := [Text("## " + section.title), Text("")];
    ghost var head := lines;
    TitleCitesNothing(section.title);
    match extract {
      case None =>
        lines := ClaimLines(lines, []);
      case Some(out) =>
        lines := ClaimLines(lines, out.claims);
        lines := SynthesisLines(lines, out.synthesis);
        var plain := PlainSections(out);
        PlainLinesCiteNothing(lines, plain);
        lines := lines + plain;
        assert lines == head + (ClaimPart(out.claims) + SynthesisPart(out.synthesis) + PlainPart(out));
    }
  }

  lemma TitleCitesNothing(title: string)
    ensures MarksOf([Text("## " + title), Text("")]) == [] && ClaimMarks([]) == []
  {
    PlainLinesCiteNothing([], [Text("## " + title), Text("")]);
    assert [] + [Text("## " + title), Text("")] == [Text("## " + title), Text("")];
  }

  ghost predicate Drafted(extracts: map<string, SynthesizerOutput>, drafts: map<string, seq<Line>>, id: string) {
    id in drafts && MarksOf(drafts[id]) == if id in extracts then CitedBy(extracts[id]) else []
  }

  ghost predicate Listed(outline: seq<PlannerSection>, id: string) {
    exists i :: 0 <= i < |outline| && outline[i].sectionId == id
  }

  /** No later section has the same id. */
  ghost predicate IsLast(outline: seq<PlannerSection>, i: nat) {
    i < |outline| && forall j :: i < j < |outline| ==> outline[j].sectionId != outline[i].sectionId
  }

  ghost predicate LaidOut(extracts: map<string, SynthesizerOutput>, drafts: map<string, seq<Line>>,
                          section: PlannerSection)
  {
    var id := section.sectionId;
    id in drafts && drafts[id] == Layout(section, if id in extracts then Some(extracts[id]) else None)
  }

  method Write(outline: seq<PlannerSection>, extracts: map<string, SynthesizerOutput>, drafts: map<string, seq<Line>>)
    returns (r: map<string, seq<Line>>)
    ensures forall i :: 0 <= i < |outline| ==> Drafted(extracts, r, outline[i].sectionId)
    ensures forall i :: 0 <= i < |outline| && IsLast(outline, i) ==> LaidOut(extracts, r, outline[i])
    ensures forall id :: !Listed(outline, id) ==> (id in r <==> id in drafts) && (id in r ==> r[id] == drafts[id])
  {
    hide MarksOf, CitedBy, Layout;
    r := drafts;
    for i := 0 to |outline|
      invariant forall k :: 0 <= k < i ==> Drafted(extracts, r, outline[k].sectionId)
      invariant forall k :: 0 <= k < i && IsLast(outline, k) ==> LaidOut(extracts, r, outline[k])
      invariant forall id :: !Listed(outline, id) ==> (id in r <==> id in drafts) && (id in r ==> r[id] == drafts[id])
    {
      var id := outline[i].sectionId;
      var lines := WriteSection(outline[i], if id in extracts then Some(extracts[id]) else None);
      assert Listed(outline, id);
      r := r[id := lines];
    }
  }
}
