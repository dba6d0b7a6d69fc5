/** Prompt-size accounting for one section's evidence (synthesis/synthesizer.py,
    _packed_total_tokens and _build_user_message). */
module Packing {
  import opened Prelude
  import opened Roles
  import opened Schemas
  import Decimal

  const CHARS_PER_TOKEN := 4
  const SECTION_HEADER := "\n\n## EvidenceItems for this section\n\n"
  const BLOCK_JOINER := "\n\n"

  function EstimateTokens(text: string): nat { |text| / CHARS_PER_TOKEN }

  /** The header's 37 characters are charged as 9 tokens. */
  function HeaderTokens(): (n: nat)
    ensures n == 9 && |SECTION_HEADER| == 37
  { EstimateTokens(SECTION_HEADER) }

  /** A joiner's 2 characters are charged as none. */
  function JoinerTokens(): (n: nat)
    ensures n == 0
  { EstimateTokens(BLOCK_JOINER) }

  function SpanText(span: Option<string>): string {
    if span.None? || span.value == "" then "(none)" else span.value
  }

  function FormatItem(item: EvidenceItem): string {
    "### " + item.evidenceId
    + "\npaper_id: " + item.paperId
    + "\nconfidence: " + Decimal.Fixed2(item.confidence)
    + "\nclaim: " + item.claim
    + "\nsource_span: " + SpanText(item.sourceSpan)
  }

  /** The items' blocks with the joiner between consecutive ones. */
  function FormatItems(items: seq<EvidenceItem>): string {
    if items == [] then ""
    else if |items| == 1 then FormatItem(items[0])
    else FormatItems(items[..|items| - 1]) + BLOCK_JOINER + FormatItem(items[|items| - 1])
  }

  /** `template` is the formatted base prompt. */
  function BuildUserMessage(template: string, items: seq<EvidenceItem>): string {
    template + SECTION_HEADER + FormatItems(items)
  }

  /** One block, spelled out. */
  lemma BlockText()
    ensures FormatItem(EvidenceItem("E", "run", "P", "sec", "C", Some("S"), None, 0.5, ResearcherDeep))
         == "### E\npaper_id: P\nconfidence: 0.50\nclaim: C\nsource_span: S"
  {
    hide Decimal.Fixed2;
    HalfText();
    assert SpanText(Some("S")) == "S";
    BlockLines();
  }

  lemma BlockLines()
    ensures "### " + "E" + "\npaper_id: " + "P" + "\nconfidence: " + "0.50" + "\nclaim: " + "C" + "\nsource_span: "
            + "S"
         == "### E\npaper_id: P\nconfidence: 0.50\nclaim: C\nsource_span: S"
  {
    FirstLines();
    LastLines();
    var front, back := "### E\npaper_id: P\nconfidence: 0.50", "\nclaim: C\nsource_span: S";
    assert front + "\nclaim: " + "C" + "\nsource_span: " + "S" == front + ("\nclaim: " + "C" + "\nsource_span: " + "S");
  }

  lemma FirstLines()
    ensures "### " + "E" + "\npaper_id: " + "P" + "\nconfidence: " + "0.50" == "### E\npaper_id: P\nconfidence: 0.50"
  {
    assert "### " + "E" + "\npaper_id: " + "P" == "### E\npaper_id: P";
  }

  lemma LastLines()
    ensures "\nclaim: " + "C" + "\nsource_span: " + "S" == "\nclaim: C\nsource_span: S"
  {
  }

  lemma HalfText()
    ensures Decimal.Fixed2(0.5) == "0.50"
  {
  }

  /** A missing or empty span is shown as none. */
  lemma SpanShown(span: Option<string>)
    ensures if span == None || span == Some("") then SpanText(span) == "(none)" else Some(SpanText(span)) == span
  {
  }

  /** The prompt begins with the template and holds the blocks in the order of the items. */
  lemma PromptKeepsOrder(template: string, items: seq<EvidenceItem>, k: nat)
    requires 0 < k < |items|
    ensures template + SECTION_HEADER + FormatItems(items[..k]) + BLOCK_JOINER + FormatItem(items[k])
            <= BuildUserMessage(template, items)
  {
    hide FormatItem, FormatItems, SECTION_HEADER, BLOCK_JOINER;
    BlocksGrow(items, k);
    assert FormatItems(items[..k]) + BLOCK_JOINER + FormatItem(items[k]) <= FormatItems(items);
  }

  lemma {:induction false} BlocksGrow(items: seq<EvidenceItem>, k: nat)
    requires 0 < k < |items|
    ensures FormatItems(items[..k]) + BLOCK_JOINER + FormatItem(items[k]) <= FormatItems(items)
    decreases |items|
  {
    hide FormatItem, BLOCK_JOINER;
    var n := |items| - 1;
    if k < n {
      assert items[..n][..k] == items[..k];
      BlocksGrow(items[..n], k);
      assert FormatItems(items[..n]) <= FormatItems(items);
    }
  }

  // ---- Grouping -----------------------------------------------------------

  /** The papers in order of first appearance. */
  function PapersOf(items: seq<EvidenceItem>): (ps: seq<string>)
    ensures NoDup(ps)
    ensures forall p :: p in ps <==> exists i :: 0 <= i < |items| && items[i].paperId == p
  {
    if items == [] then []
    else
      var ps := PapersOf(items[..|items| - 1]);
      var p := items[|items| - 1].paperId;
      assert forall i :: 0 <= i < |items| - 1 ==> items[..|items| - 1][i] == items[i];
      if p in ps then ps else ps + [p]
  }

  /** One paper's items, in order. */
  function ItemsOf(items: seq<EvidenceItem>, p: string): (r: seq<EvidenceItem>)
    ensures forall i :: 0 <= i < |r| ==> r[i].paperId == p
  {
    if items == [] then []
    else
      var last := items[|items| - 1];
      ItemsOf(items[..|items| - 1], p) + if last.paperId == p then [last] else []
  }

  lemma {:induction false} ListedHasItems(items: seq<EvidenceItem>, p: string)
    ensures p in PapersOf(items) <==> ItemsOf(items, p) != []
  {
    if items != [] { ListedHasItems(items[..|items| - 1], p); }
  }

  function BlockTokens(items: seq<EvidenceItem>, p: string): nat {
    EstimateTokens(FormatItems(ItemsOf(items, p)))
  }

  function SumBlocks(ps: seq<string>, items: seq<EvidenceItem>): nat {
    if ps == [] then 0 else SumBlocks(ps[..|ps| - 1], items) + BlockTokens(items, ps[|ps| - 1])
  }

  /** Base prompt, header, per-paper blocks and the joiners between them. */
  function PackedTokens(items: seq<EvidenceItem>, base: nat): nat {
    if items == [] then base
    else
      base + HeaderTokens() + SumBlocks(PapersOf(items), items)
      + (|PapersOf(items)| - 1) * JoinerTokens()
  }

  /** The papers in order, and each one's items. */
  ghost predicate Grouped(items: seq<EvidenceItem>, order: seq<string>, groups: map<string, seq<EvidenceItem>>) {
    && order == PapersOf(items) && groups.Keys == Elems(order)
    && forall p :: p in groups ==> groups[p] == ItemsOf(items, p)
  }

  lemma GroupGrows(items: seq<EvidenceItem>, item: EvidenceItem, order: seq<string>,
                  groups: map<string, seq<EvidenceItem>>)
    requires Grouped(items, order, groups)
    ensures var p := item.paperId;
            if p in groups then Grouped(items + [item], order, groups[p := groups[p] + [item]])
            else Grouped(items + [item], order + [p], groups[p := [item]])
  {
    hide PapersOf, ItemsOf;
    var all, p := items + [item], item.paperId;
    PapersOfGrows(items, item);
    assert p in groups <==> p in order;
    ListedHasItems(items, p);
    forall q ensures ItemsOf(all, q) == ItemsOf(items, q) + if p == q then [item] else [] {
      ItemsOfAppend(items, item, q);
    }
    assert Elems(order + [p]) == Elems(order) + {p};
  }

  lemma PapersOfGrows(items: seq<EvidenceItem>, item: EvidenceItem)
    ensures PapersOf(items + [item]) ==
            if item.paperId in PapersOf(items) then PapersOf(items) else PapersOf(items) + [item.paperId]
  {
    assert (items + [item])[..|items|] == items;
  }

  /** The dict of lists built item by item, keys in insertion order. */
  method GroupByPaper(items: seq<EvidenceItem>) returns (order: seq<string>, groups: map<string, seq<EvidenceItem>>)
    ensures order == PapersOf(items)
    ensures groups.Keys == Elems(order)
    ensures forall p :: p in groups ==> groups[p] == ItemsOf(items, p)
  {
    order, groups := [], map[];
    assert Grouped([], [], map[]);
    for i := 0 to |items|
      invariant Grouped(items[..i], order, groups)
    {
      hide Grouped;
      var item := items[i];
      assert items[..i + 1] == items[..i] + [item];
      GroupGrows(items[..i], item, order, groups);
      if item.paperId in groups {
        groups := groups[item.paperId := groups[item.paperId] + [item]];
      } else {
        order := order + [item.paperId];
        groups := groups[item.paperId := [item]];
      }
    }
    assert items[..|items|] == items;
  }

  method PackedTotalTokens(items: seq<EvidenceItem>, base: nat) returns (t: nat)
    ensures t == PackedTokens(items, base)
  {
    hide FormatItems, HeaderTokens, JoinerTokens, PapersOf, ItemsOf;
    var order, groups := GroupByPaper(items);
    if order == [] {
      NoPapersNoItems(items);
      return base;
    }
    forall i | 0 <= i < |order| ensures order[i] in groups { assert order[i] in Elems(order); }
    var perPaper := SumPaperTokens(order, groups, items);
    t := base + HeaderTokens() + perPaper + (|order| - 1) * JoinerTokens();
  }

  lemma NoPapersNoItems(items: seq<EvidenceItem>)
    ensures PapersOf(items) == [] <==> items == []
  {
    if items != [] { assert items[0].paperId in PapersOf(items); }
  }

  /** The generator sum over the groups. */
  method SumPaperTokens(order: seq<string>, groups: map<string, seq<EvidenceItem>>, ghost items: seq<EvidenceItem>)
    returns (sum: nat)
    requires forall i :: 0 <= i < |order| ==> order[i] in groups && groups[order[i]] == ItemsOf(items, order[i])
    ensures sum == SumBlocks(order, items)
  {
    hide FormatItems, ItemsOf;
    sum := 0;
    for i := 0 to |order|
      invariant sum == SumBlocks(order[..i], items)
    {
      assert order[..i + 1][..i] == order[..i];
      sum := sum + EstimateTokens(FormatItems(groups[order[i]]));
    }
    assert order[..|order|] == order;
  }

  // ---- Lengths ------------------------------------------------------------

  /** Characters of the items' blocks, each counted with one joiner. */
  function Weight(items: seq<EvidenceItem>): nat {
    if items == [] then 0 else Weight(items[..|items| - 1]) + |FormatItem(items[|items| - 1])| + 2
  }

  lemma BlockIsLong(item: EvidenceItem)
    ensures |FormatItem(item)| >= 4
  {
  }

  lemma {:induction false} FormatLength(items: seq<EvidenceItem>)
    requires items != []
    ensures |FormatItems(items)| == Weight(items) - 2 && |FormatItems(items)| >= 4
  {
    hide FormatItem;
    if |items| > 1 {
      FormatLength(items[..|items| - 1]);
    } else {
      BlockIsLong(items[0]);
      assert Weight(items[..0]) == 0;
    }
  }

  lemma {:induction false} WeightRemove(items: seq<EvidenceItem>, j: nat)
    requires j < |items|
    ensures Weight(items) == Weight(items[..j] + items[j + 1..]) + |FormatItem(items[j])| + 2
  {
    hide FormatItem;
    var n := |items| - 1;
    RemoveKeepsLast(items, j);
    if j < n {
      WeightRemove(items[..n], j);
      WeightAppend(items[..n][..j] + items[..n][j + 1..], items[n]);
    }
  }

  lemma {:induction false} WeightPermutes(a: seq<EvidenceItem>, b: seq<EvidenceItem>)
    requires multiset(a) == multiset(b)
    ensures Weight(a) == Weight(b)
    decreases |a|
  {
    hide FormatItem;
    if a == [] {
      assert |multiset(b)| == 0;
    } else {
      var j := LastElsewhere(a, b);
      WeightPermutes(a[..|a| - 1], b[..j] + b[j + 1..]);
      WeightRemove(b, j);
    }
  }

  lemma {:induction false} ItemsOfCounts(items: seq<EvidenceItem>, p: string, x: EvidenceItem)
    ensures multiset(ItemsOf(items, p))[x] == if x.paperId == p then multiset(items)[x] else 0
  {
    if items != [] {
      ItemsOfCounts(items[..|items| - 1], p, x);
      SplitLast(items);
    }
  }

  lemma ItemsOfPermutes(a: seq<EvidenceItem>, b: seq<EvidenceItem>, p: string)
    requires multiset(a) == multiset(b)
    ensures multiset(ItemsOf(a, p)) == multiset(ItemsOf(b, p))
  {
    forall x ensures multiset(ItemsOf(a, p))[x] == multiset(ItemsOf(b, p))[x] {
      ItemsOfCounts(a, p, x);
      ItemsOfCounts(b, p, x);
    }
  }

  lemma BlockTokensPermute(a: seq<EvidenceItem>, b: seq<EvidenceItem>, p: string)
    requires multiset(a) == multiset(b)
    ensures BlockTokens(a, p) == BlockTokens(b, p)
  {
    hide FormatItem;
    ItemsOfPermutes(a, b, p);
    var x, y := ItemsOf(a, p), ItemsOf(b, p);
    WeightPermutes(x, y);
    if x != [] && y != [] {
      FormatLength(x);
      FormatLength(y);
    } else {
      assert |multiset(x)| == |x| && |multiset(y)| == |y|;
    }
  }

  lemma SamePapers(a: seq<EvidenceItem>, b: seq<EvidenceItem>)
    requires multiset(a) == multiset(b)
    ensures Elems(PapersOf(a)) == Elems(PapersOf(b))
  {
    forall p ensures p in PapersOf(a) <==> p in PapersOf(b) {
      ItemsOfPermutes(a, b, p);
      ListedHasItems(a, p);
      ListedHasItems(b, p);
      assert |multiset(ItemsOf(a, p))| == |ItemsOf(a, p)| && |multiset(ItemsOf(b, p))| == |ItemsOf(b, p)|;
    }
  }

  // ---- Sums over papers ---------------------------------------------------

  lemma SumAppend(ps: seq<string>, items: seq<EvidenceItem>, p: string)
    ensures SumBlocks(ps + [p], items) == SumBlocks(ps, items) + BlockTokens(items, p)
  {
    hide BlockTokens;
    assert (ps + [p])[..|ps|] == ps;
  }

  lemma {:induction false} SumRemove(ps: seq<string>, items: seq<EvidenceItem>, j: nat)
    requires j < |ps|
    ensures SumBlocks(ps, items) == SumBlocks(ps[..j] + ps[j + 1..], items) + BlockTokens(items, ps[j])
  {
    hide BlockTokens;
    var n := |ps| - 1;
    RemoveKeepsLast(ps, j);
    if j < n {
      SumRemove(ps[..n], items, j);
      SumAppend(ps[..n][..j] + ps[..n][j + 1..], items, ps[n]);
    }
  }

  /** The sum over distinct papers does not depend on their order, nor on the order of
      the items. */
  lemma {:induction false} SumPermutes(ps: seq<string>, qs: seq<string>, a: seq<EvidenceItem>, b: seq<EvidenceItem>)
    requires multiset(ps) == multiset(qs) && multiset(a) == multiset(b)
    ensures SumBlocks(ps, a) == SumBlocks(qs, b)
    decreases |ps|
  {
    hide BlockTokens;
    if ps == [] {
      assert |multiset(qs)| == 0;
    } else {
      var j := LastElsewhere(ps, qs);
      SumPermutes(ps[..|ps| - 1], qs[..j] + qs[j + 1..], a, b);
      SumRemove(qs, b, j);
      BlockTokensPermute(a, b, qs[j]);
    }
  }

  /** The accounting ignores the order of the rows altogether. */
  lemma PackedIgnoresOrder(a: seq<EvidenceItem>, b: seq<EvidenceItem>, base: nat)
    requires multiset(a) == multiset(b)
    ensures PackedTokens(a, base) == PackedTokens(b, base)
  {
    hide BlockTokens, PapersOf, SumBlocks, HeaderTokens;
    SamePapers(a, b);
    DistinctSameMultiset(PapersOf(a), PapersOf(b));
    SumPermutes(PapersOf(a), PapersOf(b), a, b);
    assert |multiset(a)| == |a| && |multiset(PapersOf(a))| == |PapersOf(a)|;
    assert |multiset(b)| == |b| && |multiset(PapersOf(b))| == |PapersOf(b)|;
  }

  // ---- Accuracy of the estimate -------------------------------------------

  /** Characters lost to rounding, summed over the papers' blocks. */
  function SumResidues(ps: seq<string>, items: seq<EvidenceItem>): nat {
    if ps == [] then 0
    else SumResidues(ps[..|ps| - 1], items) + |FormatItems(ItemsOf(items, ps[|ps| - 1]))| % CHARS_PER_TOKEN
  }

  function SumWeights(ps: seq<string>, items: seq<EvidenceItem>): nat {
    if ps == [] then 0 else SumWeights(ps[..|ps| - 1], items) + Weight(ItemsOf(items, ps[|ps| - 1]))
  }

  /** Appending an item adds its weight to its own paper's share and no other. */
  lemma {:induction false} SumWeightsAppend(ps: seq<string>, items: seq<EvidenceItem>, item: EvidenceItem)
    requires NoDup(ps)
    ensures SumWeights(ps, items + [item])
         == SumWeights(ps, items) + if item.paperId in ps then |FormatItem(item)| + 2 else 0
  {
    hide FormatItem;
    if ps != [] {
      var front, p := ps[..|ps| - 1], ps[|ps| - 1];
      assert ps == front + [p];
      SumWeightsAppend(front, items, item);
      ItemsOfAppend(items, item, p);
      WeightAppend(ItemsOf(items, p), item);
      assert p !in front;
      assert item.paperId in ps <==> item.paperId in front || item.paperId == p;
      assert ItemsOf(items, p) + [] == ItemsOf(items, p);
      assert SumWeights(ps, items + [item]) == SumWeights(front, items + [item]) + Weight(ItemsOf(items + [item], p));
      assert SumWeights(ps, items) == SumWeights(front, items) + Weight(ItemsOf(items, p));
    }
  }

  lemma ItemsOfAppend(items: seq<EvidenceItem>, item: EvidenceItem, p: string)
    ensures ItemsOf(items + [item], p) == ItemsOf(items, p) + if item.paperId == p then [item] else []
  {
    assert (items + [item])[..|items|] == items;
  }

  lemma WeightAppend(items: seq<EvidenceItem>, item: EvidenceItem)
    ensures Weight(items + [item]) == Weight(items) + |FormatItem(item)| + 2
  {
    hide FormatItem;
    assert (items + [item])[..|items|] == items;
  }

  /** Joining all items is as long as joining the papers' separate blocks, however the
      papers' rows interleave. */
  lemma {:induction false} WeightSplitsByPaper(items: seq<EvidenceItem>)
    ensures Weight(items) == SumWeights(PapersOf(items), items)
  {
    hide FormatItem, PapersOf, ItemsOf, SumWeights, Weight;
    if items == [] {
      NothingWeighsNothing(items);
    } else {
      var n := |items| - 1;
      var front, item := items[..n], items[n];
      WeightSplitsByPaper(front);
      SumWeightsWithItem(front, item);
      WeightAppend(front, item);
      assert items == front + [item];
    }
  }

  lemma NothingWeighsNothing(items: seq<EvidenceItem>)
    requires items == []
    ensures Weight(items) == 0 && SumWeights(PapersOf(items), items) == 0
  {
  }

  lemma SumWeightsWithItem(front: seq<EvidenceItem>, item: EvidenceItem)
    ensures SumWeights(PapersOf(front + [item]), front + [item])
         == SumWeights(PapersOf(front), front) + |FormatItem(item)| + 2
  {
    hide FormatItem, ItemsOf, Weight, SumWeights;
    assert (front + [item])[..|front|] == front;
    var ps := PapersOf(front);
    SumWeightsAppend(ps, front, item);
    if item.paperId !in ps { SumWeightsNewPaper(ps, front, item); }
  }

  lemma SumWeightsNewPaper(ps: seq<string>, front: seq<EvidenceItem>, item: EvidenceItem)
    requires item.paperId !in PapersOf(front)
    ensures SumWeights(ps + [item.paperId], front + [item])
         == SumWeights(ps, front + [item]) + |FormatItem(item)| + 2
  {
    hide FormatItem;
    assert (ps + [item.paperId])[..|ps|] == ps;
    ListedHasItems(front, item.paperId);
    ItemsOfAppend(front, item, item.paperId);
    assert Weight([item]) == Weight([item][..0]) + |FormatItem(item)| + 2;
    assert ItemsOf(front + [item], item.paperId) == [item];
  }

  /** Each paper's weight is its block's tokens, its residue and one joiner. */
  lemma {:induction false} WeightsFromBlocks(ps: seq<string>, items: seq<EvidenceItem>)
    requires forall i :: 0 <= i < |ps| ==> ps[i] in PapersOf(items)
    ensures SumWeights(ps, items) == 4 * SumBlocks(ps, items) + SumResidues(ps, items) + 2 * |ps|
    ensures SumResidues(ps, items) <= 3 * |ps|
  {
    hide FormatItem;
    if ps != [] {
      var p := ps[|ps| - 1];
      WeightsFromBlocks(ps[..|ps| - 1], items);
      ListedHasItems(items, p);
      FormatLength(ItemsOf(items, p));
    }
  }

  /** Characters the estimate rounds away: from the template, the header (37 = 4*9 + 1),
      the blocks, and the joiners, which are charged 2 / 4 = 0. */
  function Slack(template: string, items: seq<EvidenceItem>): int {
    |template| % CHARS_PER_TOKEN + 1 + SumResidues(PapersOf(items), items) + 2 * (|PapersOf(items)| - 1)
  }

  /** How far the accounting is below the size of the prompt that is sent: exactly the
      whole tokens in the slack, hence at most (5P + 2) / 4 tokens for P papers. */
  lemma EstimateError(template: string, items: seq<EvidenceItem>)
    requires items != []
    ensures var packed, sent := PackedTokens(items, EstimateTokens(template)),
              EstimateTokens(BuildUserMessage(template, items));
            && sent == packed + Slack(template, items) / 4
            && packed <= sent <= packed + (5 * |PapersOf(items)| + 2) / 4
  {
    hide FormatItem, FormatItems, HeaderTokens, JoinerTokens, SECTION_HEADER;
    var ps := PapersOf(items);
    assert items[0].paperId in ps;
    FormatLength(items);
    WeightSplitsByPaper(items);
    WeightsFromBlocks(ps, items);
    assert HeaderTokens() == 9;
    assert (|ps| - 1) * JoinerTokens() == 0;
    assert |BuildUserMessage(template, items)| == |template| + 37 + Weight(items) - 2;
  }

  /** The accounting is meant as a pessimistic bound on the prompt. It is one exactly
      when the slack is under one token, which three papers already rule out. */
  lemma BoundsThePromptExactlyWhen(template: string, items: seq<EvidenceItem>)
    requires items != []
    ensures PackedTokens(items, EstimateTokens(template)) >= EstimateTokens(BuildUserMessage(template, items))
            <==> Slack(template, items) < 4
    ensures |PapersOf(items)| >= 3 ==>
              PackedTokens(items, EstimateTokens(template)) < EstimateTokens(BuildUserMessage(template, items))
  {
    EstimateError(template, items);
  }

  function ShortItem(paperId: string): EvidenceItem {
    EvidenceItem("e" + paperId, "r", paperId, "s", "c", None, None, 1.0, ResearcherDeep)
  }

  lemma PapersOfThree(a: EvidenceItem, b: EvidenceItem, c: EvidenceItem)
    requires a.paperId != b.paperId && a.paperId != c.paperId && b.paperId != c.paperId
    ensures |PapersOf([a, b, c])| == 3
  {
    assert PapersOf([]) == [];
    hide PapersOf;
    assert [] + [a] == [a] && [a] + [b] == [a, b] && [a, b] + [c] == [a, b, c];
    PapersOfGrows([], a);
    PapersOfGrows([a], b);
    PapersOfGrows([a, b], c);
  }

  /** Three papers with one short item each, under an empty template. */
  lemma ThreePapersExceedTheirEstimate()
    ensures var items := [ShortItem("a"), ShortItem("b"), ShortItem("c")];
            PackedTokens(items, EstimateTokens("")) < EstimateTokens(BuildUserMessage("", items))
  {
    hide PackedTokens, BuildUserMessage, EstimateTokens, PapersOf;
    assert "a"[0] != "b"[0] && "b"[0] != "c"[0] && "a"[0] != "c"[0];
    PapersOfThree(ShortItem("a"), ShortItem("b"), ShortItem("c"));
    BoundsThePromptExactlyWhen("", [ShortItem("a"), ShortItem("b"), ShortItem("c")]);
  }
}
