/** The evidence_items table (runtime/evidence.py). */
module EvidenceStore {
  import opened Prelude
  import opened Schemas

  /** The rows of one section of one run. */
  function Matching(rows: seq<EvidenceItem>, runId: string, sectionId: string): seq<EvidenceItem> {
    if rows == [] then []
    else
      var last := rows[|rows| - 1];
      Matching(rows[..|rows| - 1], runId, sectionId)
      + if last.runId == runId && last.sectionId == sectionId then [last] else []
  }

  lemma {:induction false} MatchingMembers(rows: seq<EvidenceItem>, runId: string, sectionId: string, x: EvidenceItem)
    ensures x in Matching(rows, runId, sectionId) <==> x in rows && x.runId == runId && x.sectionId == sectionId
  {
    if rows != [] {
      MatchingMembers(rows[..|rows| - 1], runId, sectionId, x);
      assert rows == rows[..|rows| - 1] + [rows[|rows| - 1]];
    }
  }

  /** Each row of the section comes back as often as it is stored. */
  lemma {:induction false} MatchingCounts(rows: seq<EvidenceItem>, runId: string, sectionId: string, x: EvidenceItem)
    ensures multiset(Matching(rows, runId, sectionId))[x]
         == if x.runId == runId && x.sectionId == sectionId then multiset(rows)[x] else 0
  {
    if rows != [] {
      MatchingCounts(rows[..|rows| - 1], runId, sectionId, x);
      SplitLast(rows);
    }
  }

  predicate HasId(rows: seq<EvidenceItem>, id: string) {
    exists x :: x in rows && x.evidenceId == id
  }

  /** The primary key. */
  ghost predicate UniqueIds(rows: seq<EvidenceItem>) {
    forall i, j :: 0 <= i < j < |rows| ==> rows[i].evidenceId != rows[j].evidenceId
  }

  class Store {
    var rows: seq<EvidenceItem>

    constructor (rows: seq<EvidenceItem>)
      ensures this.rows == rows
    { this.rows := rows; }

    /** INSERT; false stands for the unique violation, which leaves the table alone. */
    method Save(item: EvidenceItem) returns (ok: bool)
      modifies this
      ensures ok <==> !HasId(old(rows), item.evidenceId)
      ensures rows == old(rows) + if ok then [item] else []
      ensures UniqueIds(old(rows)) ==> UniqueIds(rows)
    {
      ok := !HasId(rows, item.evidenceId);
      if ok { rows := rows + [item]; }
    }

    method Load(id: string) returns (r: Option<EvidenceItem>)
      ensures r.Some? ==> r.value in rows && r.value.evidenceId == id
      ensures r.None? ==> !HasId(rows, id)
    {
      for i := 0 to |rows|
        invariant forall j :: 0 <= j < i ==> rows[j].evidenceId != id
      {
        if rows[i].evidenceId == id { return Some(rows[i]); }
      }
      r := None;
    }

    /** SELECT ... ORDER BY created_at. Rows of one write transaction share their
        timestamp, so callers may rely on which rows come back but not on their order. */
    method ListBySection(runId: string, sectionId: string) returns (items: seq<EvidenceItem>)
      ensures multiset(items) == multiset(Matching(rows, runId, sectionId))
    {
      items := Matching(rows, runId, sectionId);
    }
  }

  /** Under the primary key an id loads back the row that was saved with it. */
  lemma LoadIsUnique(rows: seq<EvidenceItem>, x: EvidenceItem, y: EvidenceItem)
    requires UniqueIds(rows) && x in rows && y in rows && x.evidenceId == y.evidenceId
    ensures x == y
  {
    var i :| 0 <= i < |rows| && rows[i] == x;
    var j :| 0 <= j < |rows| && rows[j] == y;
  }

  lemma MatchingAppend(rows: seq<EvidenceItem>, x: EvidenceItem, runId: string, sectionId: string)
    ensures Matching(rows + [x], runId, sectionId)
         == Matching(rows, runId, sectionId) + if x.runId == runId && x.sectionId == sectionId then [x] else []
  {
    assert (rows + [x])[..|rows|] == rows;
  }

  lemma {:induction false} MatchingConcat(a: seq<EvidenceItem>, b: seq<EvidenceItem>, runId: string, sectionId: string)
    ensures Matching(a + b, runId, sectionId) == Matching(a, runId, sectionId) + Matching(b, runId, sectionId)
  {
    if b == [] {
      assert a + b == a;
    } else {
      var n := |b| - 1;
      MatchingConcat(a, b[..n], runId, sectionId);
      assert a + b == (a + b[..n]) + [b[n]] && b == b[..n] + [b[n]];
      MatchingAppend(a + b[..n], b[n], runId, sectionId);
      MatchingAppend(b[..n], b[n], runId, sectionId);
    }
  }
}
