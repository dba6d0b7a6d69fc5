/** Greedy whole-paper packing under a token budget (synthesis/synthesizer.py,
    _top_k_rerank). */
module Rerank {
  import opened Prelude
  import opened Schemas
  import opened Packing

  // ---- Ranking ------------------------------------------------------------

  datatype Score = Score(average: real, count: nat)

  function SumConfidence(items: seq<EvidenceItem>): real {
    if items == [] then 0.0 else SumConfidence(items[..|items| - 1]) + items[|items| - 1].confidence
  }

  function ScoreOf(items: seq<EvidenceItem>, p: string): Score {
    var own := ItemsOf(items, p);
    Score(if own == [] then 0.0 else SumConfidence(own) / |own| as real, |own|)
  }

  /** Tuple order: higher average first, then more items. */
  predicate Higher(a: Score, b: Score) {
    a.average > b.average || (a.average == b.average && a.count > b.count)
  }

  /** `p` placed after every paper whose score is at least its own. */
  function Insert(p: string, ranked: seq<string>, items: seq<EvidenceItem>): (r: seq<string>)
    ensures multiset(r) == multiset(ranked) + multiset{p}
  {
    if ranked == [] then [p]
    else if Higher(ScoreOf(items, p), ScoreOf(items, ranked[|ranked| - 1])) then
      SplitLast(ranked);
      Insert(p, ranked[..|ranked| - 1], items) + [ranked[|ranked| - 1]]
    else ranked + [p]
  }

  /** sorted(..., reverse=True): stable, best score first. */
  function SortByScore(ps: seq<string>, items: seq<EvidenceItem>): (r: seq<string>)
    ensures multiset(r) == multiset(ps)
  {
    if ps == [] then []
    else
      SplitLast(ps);
      Insert(ps[|ps| - 1], SortByScore(ps[..|ps| - 1], items), items)
  }

  function Ranked(items: seq<EvidenceItem>): seq<string> {
    SortByScore(PapersOf(items), items)
  }

  /** No later paper scores higher than an earlier one. */
  ghost predicate Descending(ps: seq<string>, items: seq<EvidenceItem>) {
    forall i, j :: 0 <= i < j < |ps| ==> !Higher(ScoreOf(items, ps[j]), ScoreOf(items, ps[i]))
  }

  lemma HigherIsTotalPreorder(a: Score, b: Score, c: Score)
    ensures !Higher(a, b) && !Higher(b, c) ==> !Higher(a, c)
    ensures !Higher(a, b) && !Higher(b, a) ==> a == b
  {
  }

  lemma {:induction false} InsertKeepsDescending(p: string, ranked: seq<string>, items: seq<EvidenceItem>)
    requires Descending(ranked, items)
    ensures Descending(Insert(p, ranked, items), items)
  {
    hide ScoreOf;
    var r := Insert(p, ranked, items);
    if ranked != [] {
      var n := |ranked| - 1;
      var last := ranked[n];
      if Higher(ScoreOf(items, p), ScoreOf(items, last)) {
        var front := Insert(p, ranked[..n], items);
        InsertKeepsDescending(p, ranked[..n], items);
        forall i | 0 <= i < |front| ensures !Higher(ScoreOf(items, last), ScoreOf(items, front[i])) {
          assert front[i] in multiset(ranked[..n]) + multiset{p};
        }
      } else {
        forall i | 0 <= i < |ranked| ensures !Higher(ScoreOf(items, p), ScoreOf(items, ranked[i])) {
          HigherIsTotalPreorder(ScoreOf(items, p), ScoreOf(items, last), ScoreOf(items, ranked[i]));
        }
      }
    }
  }

  lemma {:induction false} SortDescends(ps: seq<string>, items: seq<EvidenceItem>)
    ensures Descending(SortByScore(ps, items), items)
  {
    if ps != [] {
      SortDescends(ps[..|ps| - 1], items);
      InsertKeepsDescending(ps[|ps| - 1], SortByScore(ps[..|ps| - 1], items), items);
    }
  }

  /** The papers with a given score, in order. */
  // ---- The ranking in plain numbers ---------------------------------------

  /** The confidences of the paper's items, added up. */
  function ConfidenceOf(items: seq<EvidenceItem>, p: string): real {
    if items == [] then 0.0
    else
      var last := items[|items| - 1];
      ConfidenceOf(items[..|items| - 1], p) + if last.paperId == p then last.confidence else 0.0
  }

  function CountOf(items: seq<EvidenceItem>, p: string): nat {
    if items == [] then 0
    else CountOf(items[..|items| - 1], p) + if items[|items| - 1].paperId == p then 1 else 0
  }

  lemma {:induction false} OwnItemsAddUp(items: seq<EvidenceItem>, p: string)
    ensures SumConfidence(ItemsOf(items, p)) == ConfidenceOf(items, p) && |ItemsOf(items, p)| == CountOf(items, p)
  {
    if items != [] {
      var n := |items| - 1;
      OwnItemsAddUp(items[..n], p);
      var own := ItemsOf(items[..n], p);
      if items[n].paperId == p {
        assert (own + [items[n]])[..|own|] == own;
      } else {
        assert own + [] == own;
      }
    }
  }

  /** `p` is at least as good as `q`: the higher mean confidence, and at equal means at
      least as many items. Means are compared across, without dividing. */
  ghost predicate AtLeastAsGood(items: seq<EvidenceItem>, p: string, q: string) {
    var left := ConfidenceOf(items, q) * CountOf(items, p) as real;
    var right := ConfidenceOf(items, p) * CountOf(items, q) as real;
    left < right || (left == right && CountOf(items, q) <= CountOf(items, p))
  }

  lemma NotHigherIsAtLeastAsGood(items: seq<EvidenceItem>, p: string, q: string)
    requires ItemsOf(items, p) != [] && ItemsOf(items, q) != []
    ensures !Higher(ScoreOf(items, q), ScoreOf(items, p)) <==> AtLeastAsGood(items, p, q)
  {
    hide ScoreOf, ConfidenceOf, CountOf, ItemsOf;
    ScoreInNumbers(items, p);
    ScoreInNumbers(items, q);
    CompareQuotients(ConfidenceOf(items, q), CountOf(items, q), ConfidenceOf(items, p), CountOf(items, p));
  }

  lemma ScoreInNumbers(items: seq<EvidenceItem>, p: string)
    requires ItemsOf(items, p) != []
    ensures CountOf(items, p) > 0
    ensures ScoreOf(items, p) == Score(ConfidenceOf(items, p) / CountOf(items, p) as real, CountOf(items, p))
  {
    hide SumConfidence, ItemsOf, ConfidenceOf, CountOf;
    OwnItemsAddUp(items, p);
  }

  lemma CompareQuotients(a: real, m: nat, b: real, n: nat)
    requires m > 0 && n > 0
    ensures a / m as real < b / n as real <==> a * n as real < b * m as real
    ensures a / m as real == b / n as real <==> a * n as real == b * m as real
  {
    var x, y, u, v := a / m as real, b / n as real, m as real, n as real;
    assert x * u == a && y * v == b;
    assert a * v == x * (u * v) && b * u == y * (u * v);
    assert u * v > 0.0;
    ScaleCompares(x, y, u * v);
  }

  lemma ScaleCompares(x: real, y: real, k: real)
    requires k > 0.0
    ensures x < y <==> x * k < y * k
    ensures x == y <==> x * k == y * k
  {
    if x < y { assert (y - x) * k > 0.0; }
    if y < x { assert (x - y) * k > 0.0; }
  }

  function WithScore(ps: seq<string>, items: seq<EvidenceItem>, score: Score): seq<string> {
    if ps == [] then []
    else WithScore(ps[..|ps| - 1], items, score) + if ScoreOf(items, ps[|ps| - 1]) == score then [ps[|ps| - 1]] else []
  }

  lemma {:induction false} InsertGoesLastAmongEquals(p: string, ranked: seq<string>, items: seq<EvidenceItem>,
                                                     score: Score)
    ensures WithScore(Insert(p, ranked, items), items, score)
         == WithScore(ranked, items, score) + if ScoreOf(items, p) == score then [p] else []
  {
    hide ScoreOf, WithScore;
    if ranked == [] || !Higher(ScoreOf(items, p), ScoreOf(items, ranked[|ranked| - 1])) {
      assert Insert(p, ranked, items) == ranked + [p];
      WithScoreAppend(ranked, items, p, score);
    } else {
      var n := |ranked| - 1;
      InsertGoesLastAmongEquals(p, ranked[..n], items, score);
      WithScoreAppend(Insert(p, ranked[..n], items), items, ranked[n], score);
      WithScoreAppend(ranked[..n], items, ranked[n], score);
      assert ranked == ranked[..n] + [ranked[n]];
    }
  }

  lemma WithScoreAppend(ps: seq<string>, items: seq<EvidenceItem>, p: string, score: Score)
    ensures WithScore(ps + [p], items, score)
         == WithScore(ps, items, score) + if ScoreOf(items, p) == score then [p] else []
  {
    hide ScoreOf;
    assert (ps + [p])[..|ps|] == ps;
  }

  /** The sort is stable: papers with equal scores keep the order of first appearance. */
  lemma {:induction false} SortIsStable(ps: seq<string>, items: seq<EvidenceItem>, score: Score)
    ensures WithScore(SortByScore(ps, items), items, score) == WithScore(ps, items, score)
  {
    hide ScoreOf, Insert;
    if ps != [] {
      SortIsStable(ps[..|ps| - 1], items, score);
      InsertGoesLastAmongEquals(ps[|ps| - 1], SortByScore(ps[..|ps| - 1], items), items, score);
    }
  }

  // ---- Greedy choice ------------------------------------------------------

  /** The items of the given papers, paper by paper. */
  function Gather(ps: seq<string>, items: seq<EvidenceItem>): seq<EvidenceItem> {
    if ps == [] then [] else Gather(ps[..|ps| - 1], items) + ItemsOf(items, ps[|ps| - 1])
  }

  /** Tokens of a prompt holding exactly the given papers. */
  function Cost(ps: seq<string>, items: seq<EvidenceItem>, base: nat): nat {
    if ps == [] then base else base + HeaderTokens() + SumBlocks(ps, items)
  }

  /** Selected and dropped papers after trying `ranked` in order. */
  function Greedy(ranked: seq<string>, items: seq<EvidenceItem>, base: nat, budget: int): (seq<string>, seq<string>) {
    if ranked == [] then ([], [])
    else
      var (selected, dropped) := Greedy(ranked[..|ranked| - 1], items, base, budget);
      var p := ranked[|ranked| - 1];
      if Cost(selected + [p], items, base) <= budget then (selected + [p], dropped) else (selected, dropped + [p])
  }

  method TopKRerank(items: seq<EvidenceItem>, base: nat, budget: int)
    returns (selected: seq<EvidenceItem>, dropped: seq<string>)
    ensures var (kept, rest) := Greedy(Ranked(items), items, base, budget);
            selected == Gather(kept, items) && dropped == rest
  {
    hide PackedTokens, Cost, ItemsOf, PapersOf, SortByScore;
    var order, groups := GroupByPaper(items);
    var ranked := SortByScore(order, items);
    assert ranked == Ranked(items);
    selected, dropped := [], [];
    ghost var kept := [];
    for i := 0 to |ranked|
      invariant (kept, dropped) == Greedy(ranked[..i], items, base, budget)
      invariant selected == Gather(kept, items)
    {
      var p := ranked[i];
      assert ranked[..i + 1][..i] == ranked[..i];
      RankedIsListed(items, i);
      var candidate := selected + groups[p];
      var tokens := PackedTotalTokens(candidate, base);
      CandidateCost(ranked, items, base, budget, i);
      assert (kept + [p])[..|kept|] == kept;
      if tokens <= budget {
        selected := candidate;
        kept := kept + [p];
      } else {
        dropped := dropped + [p];
      }
    }
    assert ranked[..|ranked|] == ranked;
  }

  // ---- What a selection costs ---------------------------------------------

  lemma RankedIsPermutation(items: seq<EvidenceItem>)
    ensures multiset(Ranked(items)) == multiset(PapersOf(items))
    ensures NoDup(Ranked(items)) && Elems(Ranked(items)) == Elems(PapersOf(items))
  {
    var r, ps := Ranked(items), PapersOf(items);
    forall i, j | 0 <= i < j < |r| ensures r[i] != r[j] {
      if r[i] == r[j] {
        DistinctCount(ps, r[i]);
        RepeatCounts(r, i, j);
      }
    }
    forall p ensures p in r <==> p in ps {
      assert p in multiset(r) <==> p in multiset(ps);
    }
  }

  lemma RankedIsListed(items: seq<EvidenceItem>, i: nat)
    requires i < |Ranked(items)|
    ensures Ranked(items)[i] in Elems(PapersOf(items)) && ItemsOf(items, Ranked(items)[i]) != []
  {
    RankedIsPermutation(items);
    assert Ranked(items)[i] in Elems(Ranked(items));
    ListedHasItems(items, Ranked(items)[i]);
  }

  /** Appending one paper's rows to rows without it. */
  lemma {:induction false} AppendGroup(front: seq<EvidenceItem>, group: seq<EvidenceItem>, p: string)
    requires group != [] && (forall i :: 0 <= i < |group| ==> group[i].paperId == p)
    requires p !in PapersOf(front)
    ensures PapersOf(front + group) == PapersOf(front) + [p]
    ensures forall q :: ItemsOf(front + group, q) == ItemsOf(front, q) + if q == p then group else []
    decreases |group|
  {
    hide PapersOf, ItemsOf;
    var n := |group| - 1;
    var before := front + group[..n];
    assert front + group == before + [group[n]];
    if n == 0 {
      assert before == front;
    } else {
      AppendGroup(front, group[..n], p);
    }
    PapersOfAppend(before, group[n]);
    forall q ensures ItemsOf(front + group, q) == ItemsOf(front, q) + if q == p then group else [] {
      ItemsOfAppend(before, group[n], q);
      if q == p { assert ItemsOf(front, q) + group[..n] + [group[n]] == ItemsOf(front, q) + group; }
    }
  }

  lemma PapersOfAppend(items: seq<EvidenceItem>, item: EvidenceItem)
    ensures PapersOf(items + [item])
         == if item.paperId in PapersOf(items) then PapersOf(items) else PapersOf(items) + [item.paperId]
  {
    assert (items + [item])[..|items|] == items;
  }

  /** Gathering distinct listed papers keeps each of them whole and lists them in order. */
  lemma {:induction false} GatherKeepsPapers(ps: seq<string>, items: seq<EvidenceItem>)
    requires NoDup(ps) && forall i :: 0 <= i < |ps| ==> ItemsOf(items, ps[i]) != []
    ensures PapersOf(Gather(ps, items)) == ps
    ensures forall q :: ItemsOf(Gather(ps, items), q) == if q in ps then ItemsOf(items, q) else []
  {
    hide PapersOf, ItemsOf;
    if ps == [] {
      NothingGathered();
    } else {
      var n := |ps| - 1;
      GatherKeepsPapers(ps[..n], items);
      assert ps == ps[..n] + [ps[n]];
      AppendGroup(Gather(ps[..n], items), ItemsOf(items, ps[n]), ps[n]);
    }
  }

  lemma NothingGathered()
    ensures PapersOf([]) == [] && forall q :: ItemsOf([], q) == []
  {
  }

  lemma {:induction false} SumBlocksCongruent(ps: seq<string>, a: seq<EvidenceItem>, b: seq<EvidenceItem>)
    requires forall i :: 0 <= i < |ps| ==> ItemsOf(a, ps[i]) == ItemsOf(b, ps[i])
    ensures SumBlocks(ps, a) == SumBlocks(ps, b)
  {
    hide FormatItems;
    if ps != [] { SumBlocksCongruent(ps[..|ps| - 1], a, b); }
  }

  /** The full accounting of a gathered selection is its cost. */
  lemma GatherCost(ps: seq<string>, items: seq<EvidenceItem>, base: nat)
    requires NoDup(ps) && forall i :: 0 <= i < |ps| ==> ItemsOf(items, ps[i]) != []
    ensures PackedTokens(Gather(ps, items), base) == Cost(ps, items, base)
  {
    GatherKeepsPapers(ps, items);
    var g := Gather(ps, items);
    NoPapersNoItems(g);
    SumBlocksCongruent(ps, g, items);
    assert (|ps| - 1) * JoinerTokens() == 0;
  }

  /** Greedy splits what it has tried; both parts keep the ranking's order. */
  lemma {:induction false} GreedySplits(ranked: seq<string>, items: seq<EvidenceItem>, base: nat, budget: int)
    ensures var (s, d) := Greedy(ranked, items, base, budget);
            multiset(s) + multiset(d) == multiset(ranked)
  {
    hide Cost;
    if ranked != [] {
      GreedySplits(ranked[..|ranked| - 1], items, base, budget);
      SplitLast(ranked);
    }
  }

  lemma {:induction false} GreedyKeepsOrder(ranked: seq<string>, items: seq<EvidenceItem>, base: nat, budget: int)
    ensures var (s, d) := Greedy(ranked, items, base, budget);
            Subsequence(s, ranked) && Subsequence(d, ranked)
  {
    hide Cost;
    if ranked != [] {
      var n := |ranked| - 1;
      GreedyKeepsOrder(ranked[..n], items, base, budget);
      var (s, d) := Greedy(ranked[..n], items, base, budget);
      SubsequenceBothGrow(s, ranked[..n], ranked[n]);
      SubsequenceBothGrow(d, ranked[..n], ranked[n]);
      assert ranked == ranked[..n] + [ranked[n]];
      SubsequenceWeaken(s, ranked);
      SubsequenceWeaken(d, ranked);
    }
  }

  lemma SelectedIsSound(items: seq<EvidenceItem>, base: nat, budget: int, i: nat)
    requires i <= |Ranked(items)|
    ensures var (s, d) := Greedy(Ranked(items)[..i], items, base, budget);
            && NoDup(s) && (forall k :: 0 <= k < |s| ==> ItemsOf(items, s[k]) != [])
            && (forall p :: p in s || p in d <==> p in Ranked(items)[..i])
            && (i < |Ranked(items)| ==> Ranked(items)[i] !in s && NoDup(s + [Ranked(items)[i]]))
  {
    hide Greedy, SortByScore, PapersOf, ItemsOf;
    var ranked := Ranked(items);
    var tried := ranked[..i];
    var (s, d) := Greedy(tried, items, base, budget);
    RankedIsPermutation(items);
    GreedySplits(tried, items, base, budget);
    forall p ensures p in s || p in d <==> p in tried {
      assert p in multiset(tried) <==> p in multiset(s) + multiset(d);
    }
    forall x, y | 0 <= x < y < |s| ensures s[x] != s[y] {
      if s[x] == s[y] {
        RepeatCounts(s, x, y);
        assert NoDup(tried);
        DistinctCount(tried, s[x]);
      }
    }
    forall k | 0 <= k < |s| ensures ItemsOf(items, s[k]) != [] {
      assert s[k] in tried;
      var j :| 0 <= j < i && ranked[j] == s[k];
      RankedIsListed(items, j);
    }
    assert i < |ranked| ==> ranked[i] !in tried;
  }

  /** The loop's test is the greedy test. */
  lemma CandidateCost(ranked: seq<string>, items: seq<EvidenceItem>, base: nat, budget: int, i: nat)
    requires ranked == Ranked(items) && i < |ranked|
    ensures var (s, d) := Greedy(ranked[..i], items, base, budget);
            PackedTokens(Gather(s, items) + ItemsOf(items, ranked[i]), base) == Cost(s + [ranked[i]], items, base)
  {
    hide Greedy, SortByScore, PackedTokens, Cost, ItemsOf;
    SelectedIsSound(items, base, budget, i);
    RankedIsListed(items, i);
    var (s, d) := Greedy(ranked[..i], items, base, budget);
    assert (s + [ranked[i]])[..|s|] == s;
    GatherCost(s + [ranked[i]], items, base);
  }

  // ---- Guarantees ---------------------------------------------------------

  /** What a rerank returns. */
  ghost function Selection(items: seq<EvidenceItem>, base: nat, budget: int): seq<EvidenceItem> {
    Gather(Greedy(Ranked(items), items, base, budget).0, items)
  }

  ghost function Dropped(items: seq<EvidenceItem>, base: nat, budget: int): seq<string> {
    Greedy(Ranked(items), items, base, budget).1
  }

  /** What is kept, and what is dropped, comes in rank order. */
  lemma RerankKeepsRankOrder(items: seq<EvidenceItem>, base: nat, budget: int)
    ensures Descending(Ranked(items), items) && multiset(Ranked(items)) == multiset(PapersOf(items))
    ensures Subsequence(PapersOf(Selection(items, base, budget)), Ranked(items))
    ensures Subsequence(Dropped(items, base, budget), Ranked(items))
  {
    hide SortByScore, ItemsOf, PapersOf, Greedy, Subsequence;
    var ranked := Ranked(items);
    SortDescends(PapersOf(items), items);
    RankedIsPermutation(items);
    GreedyKeepsOrder(ranked, items, base, budget);
    assert ranked[..|ranked|] == ranked;
    SelectedIsSound(items, base, budget, |ranked|);
    GatherKeepsPapers(Greedy(ranked, items, base, budget).0, items);
  }

  /** A subsequence takes its elements from increasing positions. */
  lemma {:induction false} SubsequenceKeepsPairs(s: seq<string>, t: seq<string>, i: nat, j: nat)
    returns (x: nat, y: nat)
    requires Subsequence(s, t) && i < j < |s|
    ensures x < y < |t| && t[x] == s[i] && t[y] == s[j]
    decreases |t|
  {
    var n, m := |s| - 1, |t| - 1;
    if s[n] != t[m] {
      x, y := SubsequenceKeepsPairs(s, t[..m], i, j);
    } else if j < n {
      x, y := SubsequenceKeepsPairs(s[..n], t[..m], i, j);
    } else {
      x := SubsequenceHas(s[..n], t[..m], i);
      y := m;
    }
  }

  lemma {:induction false} SubsequenceHas(s: seq<string>, t: seq<string>, i: nat) returns (x: nat)
    requires Subsequence(s, t) && i < |s|
    ensures x < |t| && t[x] == s[i]
    decreases |t|
  {
    var n, m := |s| - 1, |t| - 1;
    if s[n] != t[m] {
      x := SubsequenceHas(s, t[..m], i);
    } else if i < n {
      x := SubsequenceHas(s[..n], t[..m], i);
    } else {
      x := m;
    }
  }

  /** The ranking, and with it the papers kept and the papers dropped, go by mean confidence
      and then by the number of items. */
  lemma RankedByMeanThenCount(items: seq<EvidenceItem>, base: nat, budget: int)
    ensures ByMeanThenCount(items, Ranked(items))
    ensures ByMeanThenCount(items, PapersOf(Selection(items, base, budget)))
    ensures ByMeanThenCount(items, Dropped(items, base, budget))
  {
    hide Ranked, Selection, Dropped, Subsequence, AtLeastAsGood, ItemsOf, PapersOf, Higher, ScoreOf;
    var ranked := Ranked(items);
    RerankKeepsRankOrder(items, base, budget);
    forall i, j | 0 <= i < j < |ranked| ensures AtLeastAsGood(items, ranked[i], ranked[j]) {
      RankedIsListed(items, i);
      RankedIsListed(items, j);
      NotHigherIsAtLeastAsGood(items, ranked[i], ranked[j]);
    }
    OrderPasses(items, PapersOf(Selection(items, base, budget)), ranked);
    OrderPasses(items, Dropped(items, base, budget), ranked);
  }

  ghost predicate ByMeanThenCount(items: seq<EvidenceItem>, ps: seq<string>) {
    forall i, j :: 0 <= i < j < |ps| ==> AtLeastAsGood(items, ps[i], ps[j])
  }

  lemma OrderPasses(items: seq<EvidenceItem>, sub: seq<string>, ranked: seq<string>)
    requires Subsequence(sub, ranked) && ByMeanThenCount(items, ranked)
    ensures ByMeanThenCount(items, sub)
  {
    hide AtLeastAsGood, Subsequence;
    forall i, j | 0 <= i < j < |sub| ensures AtLeastAsGood(items, sub[i], sub[j]) {
      var x, y := SubsequenceKeepsPairs(sub, ranked, i, j);
    }
  }

  /** Each paper is either kept with all its items in order, or dropped whole. */
  lemma PapersAreKeptWholeOrDropped(items: seq<EvidenceItem>, base: nat, budget: int)
    ensures var kept, dropped := Selection(items, base, budget), Dropped(items, base, budget);
            && NoDup(dropped)
            && (forall p :: p in PapersOf(items) <==> p in PapersOf(kept) || p in dropped)
            && (forall p :: !(p in PapersOf(kept) && p in dropped))
            && (forall p :: ItemsOf(kept, p) == if p in dropped then [] else ItemsOf(items, p))
  {
    hide SortByScore, ItemsOf, PapersOf, Greedy;
    var ranked := Ranked(items);
    assert ranked[..|ranked|] == ranked;
    SelectedIsSound(items, base, budget, |ranked|);
    var (s, d) := Greedy(ranked, items, base, budget);
    GatherKeepsPapers(s, items);
    RankedIsPermutation(items);
    GreedySplits(ranked, items, base, budget);
    forall p ensures p in PapersOf(items) <==> p in ranked {
      assert p in Elems(ranked) <==> p in Elems(PapersOf(items));
    }
    forall p ensures !(p in s && p in d) {
      DistinctCount(ranked, p);
      assert multiset(ranked)[p] == multiset(s)[p] + multiset(d)[p];
    }
    forall x, y | 0 <= x < y < |d| ensures d[x] != d[y] {
      if d[x] == d[y] { RepeatCounts(d, x, y); DistinctCount(ranked, d[x]); }
    }
    forall p ensures p !in PapersOf(items) ==> ItemsOf(items, p) == [] {
      ListedHasItems(items, p);
    }
  }

  lemma {:induction false} GreedyFits(ranked: seq<string>, items: seq<EvidenceItem>, base: nat, budget: int)
    ensures var (s, d) := Greedy(ranked, items, base, budget); s != [] ==> Cost(s, items, base) <= budget
  {
    hide Cost;
    if ranked != [] { GreedyFits(ranked[..|ranked| - 1], items, base, budget); }
  }

  /** A non-empty selection is within the budget, so the node's second budget check
      after a rerank can never fail. */
  lemma SelectionFits(items: seq<EvidenceItem>, base: nat, budget: int)
    ensures Selection(items, base, budget) != [] ==> PackedTokens(Selection(items, base, budget), base) <= budget
  {
    hide Greedy, SortByScore, PackedTokens, Cost, ItemsOf;
    var ranked := Ranked(items);
    assert ranked[..|ranked|] == ranked;
    SelectedIsSound(items, base, budget, |ranked|);
    GreedyFits(ranked, items, base, budget);
    GatherCost(Greedy(ranked, items, base, budget).0, items, base);
  }

  lemma {:induction false} CostGrows(s: seq<string>, more: seq<string>, items: seq<EvidenceItem>, base: nat)
    ensures SumBlocks(s + more, items) == SumBlocks(s, items) + SumBlocks(more, items)
    ensures Cost(s, items, base) <= Cost(s + more, items, base)
  {
    hide BlockTokens;
    if more == [] {
      assert s + more == s;
    } else {
      var n := |more| - 1;
      CostGrows(s, more[..n], items, base);
      assert s + more == (s + more[..n]) + [more[n]];
      SumAppend(s + more[..n], items, more[n]);
    }
  }

  /** Later choices only append to the selection. */
  lemma {:induction false} GreedyExtends(ranked: seq<string>, items: seq<EvidenceItem>, base: nat, budget: int, k: nat)
    requires k <= |ranked|
    ensures Greedy(ranked[..k], items, base, budget).0 <= Greedy(ranked, items, base, budget).0
    ensures Greedy(ranked[..k], items, base, budget).1 <= Greedy(ranked, items, base, budget).1
    decreases |ranked|
  {
    hide Cost;
    if k == |ranked| {
      assert ranked[..k] == ranked;
    } else {
      var n := |ranked| - 1;
      GreedyExtends(ranked[..n], items, base, budget, k);
      assert ranked[..n][..k] == ranked[..k];
    }
  }

  /** When a paper is dropped, it did not fit beside the selection of that moment. */
  lemma {:induction false} DroppedAt(ranked: seq<string>, items: seq<EvidenceItem>, base: nat, budget: int,
                                     p: string) returns (k: nat)
    requires p in Greedy(ranked, items, base, budget).1
    ensures k < |ranked| && ranked[k] == p
    ensures Cost(Greedy(ranked[..k], items, base, budget).0 + [p], items, base) > budget
  {
    hide Cost;
    var n := |ranked| - 1;
    var (s, d) := Greedy(ranked[..n], items, base, budget);
    if p in d {
      k := DroppedAt(ranked[..n], items, base, budget, p);
      assert ranked[..n][..k] == ranked[..k];
    } else {
      k := n;
    }
  }

  /** No dropped paper would fit beside the final selection. */
  lemma SelectionIsMaximal(items: seq<EvidenceItem>, base: nat, budget: int, p: string)
    requires p in Dropped(items, base, budget)
    ensures PackedTokens(Selection(items, base, budget) + ItemsOf(items, p), base) > budget
  {
    hide SortByScore, PackedTokens, ItemsOf, PapersOf, BlockTokens, Greedy;
    var ranked := Ranked(items);
    var s := Greedy(ranked, items, base, budget).0;
    var k := DroppedAt(ranked, items, base, budget, p);
    GreedyExtends(ranked, items, base, budget, k);
    var early := Greedy(ranked[..k], items, base, budget).0;
    var late := s[|early|..];
    assert s == early + late;
    CostGrows(early, late, items, base);
    SumAppend(early, items, p);
    SumAppend(s, items, p);
    assert Cost(s + [p], items, base) > budget;
    assert ranked[..|ranked|] == ranked;
    SelectedIsSound(items, base, budget, |ranked|);
    PapersAreKeptWholeOrDropped(items, base, budget);
    GatherKeepsPapers(s, items);
    assert p !in s;
    RankedIsListed(items, k);
    assert (s + [p])[..|s|] == s;
    GatherCost(s + [p], items, base);
  }

  /** A dropped paper's block is strictly larger than all the lower-ranked papers that
      were accepted after it, together. */
  lemma DroppedOutweighsLaterAccepted(items: seq<EvidenceItem>, base: nat, budget: int, p: string) returns (k: nat)
    requires p in Dropped(items, base, budget)
    ensures k < |Ranked(items)| && Ranked(items)[k] == p
    ensures var before, all := Greedy(Ranked(items)[..k], items, base, budget).0,
              Greedy(Ranked(items), items, base, budget).0;
            before <= all && BlockTokens(items, p) > SumBlocks(all[|before|..], items)
  {
    hide SortByScore, ItemsOf, PapersOf, BlockTokens, Greedy;
    var ranked := Ranked(items);
    k := DroppedAt(ranked, items, base, budget, p);
    GreedyExtends(ranked, items, base, budget, k);
    var before, all := Greedy(ranked[..k], items, base, budget).0, Greedy(ranked, items, base, budget).0;
    var later := all[|before|..];
    assert all == before + later;
    CostGrows(before, later, items, base);
    SumAppend(before, items, p);
    GreedyFits(ranked, items, base, budget);
    if later == [] {
      RankedIsListed(items, k);
      BlockIsPositive(items, p);
    }
  }

  lemma BlockIsPositive(items: seq<EvidenceItem>, p: string)
    requires ItemsOf(items, p) != []
    ensures BlockTokens(items, p) >= 1
  {
    hide FormatItems;
    FormatLength(ItemsOf(items, p));
  }

  lemma {:induction false} NothingDroppedIffCheap(ranked: seq<string>, items: seq<EvidenceItem>, base: nat, budget: int)
    requires ranked != []
    ensures var (s, d) := Greedy(ranked, items, base, budget);
            (d == [] <==> Cost(ranked, items, base) <= budget) && (d == [] ==> s == ranked)
  {
    hide BlockTokens;
    var n := |ranked| - 1;
    assert ranked == ranked[..n] + [ranked[n]];
    if n > 0 {
      NothingDroppedIffCheap(ranked[..n], items, base, budget);
      CostGrows(ranked[..n], [ranked[n]], items, base);
    } else {
      assert [] + [ranked[0]] == ranked;
    }
  }

  /** Something is dropped exactly when the section did not fit in the first place. */
  lemma DropsExactlyOnOverflow(items: seq<EvidenceItem>, base: nat, budget: int)
    requires items != []
    ensures Dropped(items, base, budget) == [] <==> PackedTokens(items, base) <= budget
    ensures PackedTokens(items, base) <= budget ==>
              Elems(PapersOf(Selection(items, base, budget))) == Elems(PapersOf(items))
  {
    hide SortByScore, ItemsOf, BlockTokens, Greedy;
    var ranked := Ranked(items);
    RankedIsPermutation(items);
    NoPapersNoItems(items);
    assert |multiset(ranked)| == |ranked| && |multiset(PapersOf(items))| == |PapersOf(items)|;
    NothingDroppedIffCheap(ranked, items, base, budget);
    SumPermutes(PapersOf(items), ranked, items, items);
    assert (|PapersOf(items)| - 1) * JoinerTokens() == 0;
    PapersAreKeptWholeOrDropped(items, base, budget);
  }

  // ---- Independence of row order ------------------------------------------

  ghost predicate DistinctScores(items: seq<EvidenceItem>) {
    forall p, q :: p in PapersOf(items) && q in PapersOf(items) && p != q ==> ScoreOf(items, p) != ScoreOf(items, q)
  }

  lemma {:induction false} ConfidenceRemove(items: seq<EvidenceItem>, j: nat)
    requires j < |items|
    ensures SumConfidence(items) == SumConfidence(items[..j] + items[j + 1..]) + items[j].confidence
  {
    var n := |items| - 1;
    RemoveKeepsLast(items, j);
    if j < n {
      ConfidenceRemove(items[..n], j);
      var rest := items[..n][..j] + items[..n][j + 1..];
      assert (rest + [items[n]])[..|rest|] == rest;
    }
  }

  lemma {:induction false} ConfidencePermutes(a: seq<EvidenceItem>, b: seq<EvidenceItem>)
    requires multiset(a) == multiset(b)
    ensures SumConfidence(a) == SumConfidence(b)
    decreases |a|
  {
    if a == [] {
      assert |multiset(b)| == 0;
    } else {
      var j := LastElsewhere(a, b);
      ConfidencePermutes(a[..|a| - 1], b[..j] + b[j + 1..]);
      ConfidenceRemove(b, j);
    }
  }

  lemma ScorePermutes(a: seq<EvidenceItem>, b: seq<EvidenceItem>, p: string)
    requires multiset(a) == multiset(b)
    ensures ScoreOf(a, p) == ScoreOf(b, p)
  {
    hide ItemsOf, SumConfidence;
    ItemsOfPermutes(a, b, p);
    var x, y := ItemsOf(a, p), ItemsOf(b, p);
    ConfidencePermutes(x, y);
    assert |multiset(x)| == |x| && |multiset(y)| == |y|;
  }

  /** A strict ranking is determined by its papers. */
  lemma {:induction false} StrictRankingIsUnique(x: seq<string>, y: seq<string>, items: seq<EvidenceItem>)
    requires multiset(x) == multiset(y) && NoDup(x)
    requires Descending(x, items) && Descending(y, items)
    requires forall i, j :: 0 <= i < j < |x| ==> ScoreOf(items, x[i]) != ScoreOf(items, x[j])
    ensures x == y
    decreases |x|
  {
    hide ScoreOf;
    assert |multiset(x)| == |x| && |multiset(y)| == |y|;
    if x != [] {
      var n := |x| - 1;
      var j := LastElsewhere(x, y);
      if j < n {
        assert y[n] in multiset(x);
        var i :| 0 <= i <= n && x[i] == y[n];
        assert i != n by { if i == n { RepeatCounts(y, j, n); DistinctCount(x, x[n]); } }
        HigherIsTotalPreorder(ScoreOf(items, x[i]), ScoreOf(items, x[n]), ScoreOf(items, x[i]));
        assert false;
      }
      SplitLast(x);
      SplitLast(y);
      assert y[..j] + y[j + 1..] == y[..n];
      StrictRankingIsUnique(x[..n], y[..n], items);
      assert x == x[..n] + [x[n]] && y == y[..n] + [y[n]];
    }
  }

  lemma {:induction false} DescendingPermutes(ps: seq<string>, a: seq<EvidenceItem>, b: seq<EvidenceItem>)
    requires multiset(a) == multiset(b) && Descending(ps, a)
    ensures Descending(ps, b)
  {
    hide ScoreOf;
    forall i, j | 0 <= i < j < |ps| ensures !Higher(ScoreOf(b, ps[j]), ScoreOf(b, ps[i])) {
      ScorePermutes(a, b, ps[i]);
      ScorePermutes(a, b, ps[j]);
    }
  }

  lemma {:induction false} GreedyPermutes(ranked: seq<string>, a: seq<EvidenceItem>, b: seq<EvidenceItem>, base: nat,
                                          budget: int)
    requires multiset(a) == multiset(b)
    ensures Greedy(ranked, a, base, budget) == Greedy(ranked, b, base, budget)
  {
    hide BlockTokens;
    if ranked != [] {
      var n := |ranked| - 1;
      GreedyPermutes(ranked[..n], a, b, base, budget);
      var s := Greedy(ranked[..n], a, base, budget).0 + [ranked[n]];
      SumPermutes(s, s, a, b);
    }
  }

  /** With pairwise distinct scores, the order in which the rows arrive - which the
      evidence query leaves open - changes neither the papers kept nor those dropped. */
  lemma RerankIgnoresRowOrder(a: seq<EvidenceItem>, b: seq<EvidenceItem>, base: nat, budget: int)
    requires multiset(a) == multiset(b) && DistinctScores(a)
    ensures Dropped(a, base, budget) == Dropped(b, base, budget)
    ensures PapersOf(Selection(a, base, budget)) == PapersOf(Selection(b, base, budget))
    ensures multiset(Selection(a, base, budget)) == multiset(Selection(b, base, budget))
  {
    hide SortByScore, ItemsOf, ScoreOf, Greedy;
    var x, y := Ranked(a), Ranked(b);
    RankedIsPermutation(a);
    RankedIsPermutation(b);
    SamePapers(a, b);
    DistinctSameMultiset(PapersOf(a), PapersOf(b));
    SortDescends(PapersOf(a), a);
    SortDescends(PapersOf(b), b);
    DescendingPermutes(y, b, a);
    forall i, j | 0 <= i < j < |x| ensures ScoreOf(a, x[i]) != ScoreOf(a, x[j]) {
      assert x[i] in Elems(x) && x[j] in Elems(x);
    }
    StrictRankingIsUnique(x, y, a);
    GreedyPermutes(x, a, b, base, budget);
    assert x[..|x|] == x && y[..|y|] == y;
    SelectedIsSound(a, base, budget, |x|);
    SelectedIsSound(b, base, budget, |y|);
    var s := Greedy(x, a, base, budget).0;
    GatherKeepsPapers(s, a);
    GatherKeepsPapers(s, b);
    GatherPermutes(s, a, b);
  }

  lemma {:induction false} GatherPermutes(ps: seq<string>, a: seq<EvidenceItem>, b: seq<EvidenceItem>)
    requires multiset(a) == multiset(b)
    ensures multiset(Gather(ps, a)) == multiset(Gather(ps, b))
  {
    hide ItemsOf;
    if ps != [] {
      GatherPermutes(ps[..|ps| - 1], a, b);
      ItemsOfPermutes(a, b, ps[|ps| - 1]);
    }
  }
}
