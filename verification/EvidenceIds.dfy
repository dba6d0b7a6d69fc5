/** Host-generated evidence ids (agents/researcher_deep.py). */
module EvidenceIds {
  import Decimal

  function EvidenceId(runId: string, sectionId: string, n: nat): string {
    "E-" + runId + "-" + sectionId + "-" + Decimal.Text(n)
  }

  /** Past the dash there are only the digits. */
  lemma AfterTheDash(s: string, digits: string, k: nat)
    ensures |s| < k <= |s| + |digits| ==> (s + "-" + digits)[k] in digits
  {
    if |s| < k <= |s| + |digits| { assert (s + "-" + digits)[k] == digits[k - |s| - 1]; }
  }

  /** The text up to the last dash and the digits after it are both recovered. */
  lemma SplitsAtLastDash(s: string, m: nat, t: string, n: nat)
    requires s + "-" + Decimal.Text(m) == t + "-" + Decimal.Text(n)
    ensures s == t && m == n
  {
    hide Decimal.Text;
    var x, y := s + "-" + Decimal.Text(m), t + "-" + Decimal.Text(n);
    assert x[|s|] == '-' && y[|t|] == '-';
    AfterTheDash(s, Decimal.Text(m), |t|);
    AfterTheDash(t, Decimal.Text(n), |s|);
    assert |s| == |t|;
    assert s == x[..|s|] && t == y[..|t|];
    assert Decimal.Text(m) == x[|s| + 1..] && Decimal.Text(n) == y[|t| + 1..];
    Decimal.TextInjective(m, n);
  }

  /** Within a run, section and number are determined by the id, whatever dashes and
      digits the section id contains. */
  lemma EvidenceIdInjective(runId: string, s: string, m: nat, t: string, n: nat)
    requires EvidenceId(runId, s, m) == EvidenceId(runId, t, n)
    ensures s == t && m == n
  {
    var head := "E-" + runId + "-";
    var x, y := s + "-" + Decimal.Text(m), t + "-" + Decimal.Text(n);
    assert EvidenceId(runId, s, m) == head + x && EvidenceId(runId, t, n) == head + y;
    assert x == (head + x)[|head|..] && y == (head + y)[|head|..];
    SplitsAtLastDash(s, m, t, n);
  }

  /** Across runs the id says less: a dash in a run id can shift into the section id, and
      the primary key does not include the run. */
  lemma IdsCanCollideAcrossRuns(n: nat)
    ensures EvidenceId("a-b", "c", n) == EvidenceId("a", "b-c", n)
  {
    assert "E-" + "a-b" + "-" + "c" + "-" == "E-" + "a" + "-" + "b-c" + "-";
  }

  /** Two runs share an id exactly when the numbers agree and one run id extends the other
      by a dash and a beginning of the other's section id. */
  lemma IdsCollideExactlyWhen(r1: string, s: string, m: nat, r2: string, t: string, n: nat)
    requires |r1| <= |r2|
    ensures EvidenceId(r1, s, m) == EvidenceId(r2, t, n) <==>
            m == n && if r1 == r2 then s == t else r1 + "-" <= r2 && s == r2[|r1| + 1..] + "-" + t
  {
    hide Decimal.Text;
    var a, b := "E-" + r1 + "-" + s, "E-" + r2 + "-" + t;
    assert EvidenceId(r1, s, m) == a + "-" + Decimal.Text(m) && EvidenceId(r2, t, n) == b + "-" + Decimal.Text(n);
    if EvidenceId(r1, s, m) == EvidenceId(r2, t, n) { SplitsAtLastDash(a, m, b, n); }
    var x, y := r1 + "-" + s, r2 + "-" + t;
    assert a == "E-" + x && b == "E-" + y;
    assert x == ("E-" + x)[2..] && y == ("E-" + y)[2..];
    SharedPrefix(r1, s, r2, t);
  }

  lemma SharedPrefix(r1: string, s: string, r2: string, t: string)
    requires |r1| <= |r2|
    ensures r1 + "-" + s == r2 + "-" + t <==>
            if r1 == r2 then s == t else r1 + "-" <= r2 && s == r2[|r1| + 1..] + "-" + t
  {
    var x, y := r1 + "-" + s, r2 + "-" + t;
    assert r1 == x[..|r1|] && r2 == y[..|r2|] && s == x[|r1| + 1..] && t == y[|r2| + 1..];
    if |r1| < |r2| {
      assert y[|r1| + 1..] == r2[|r1| + 1..] + "-" + t && y[..|r1| + 1] == r2[..|r1| + 1];
      assert x == x[..|r1| + 1] + x[|r1| + 1..] && y == y[..|r1| + 1] + y[|r1| + 1..];
      assert x[..|r1| + 1] == r1 + "-";
    }
  }

  /** The id of the eleventh card of a section, spelled out. */
  lemma EleventhId()
    ensures EvidenceId("run_0a", "s-2", 10) == "E-run_0a-s-2-10"
  {
    assert Decimal.Text(10) == "10";
  }
}
