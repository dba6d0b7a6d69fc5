/** Vocabulary shared by every module: optional values, outcomes that may be an
    exception, and a few sequence notions. */
module Prelude {

  datatype Option<+T> = None | Some(value: T)

  datatype Result<+T, +E> = Ok(value: T) | Err(error: E)

  /** The elements of a sequence. */
  function Elems<T>(s: seq<T>): set<T> {
    set x | x in s
  }

  /** No value occurs twice. */
  ghost predicate NoDup<T>(s: seq<T>) {
    forall i, j :: 0 <= i < j < |s| ==> s[i] != s[j]
  }

  /** `sub` arises from `s` by deleting elements, keeping the order. */
  ghost predicate Subsequence<T>(sub: seq<T>, s: seq<T>) {
    if sub == [] then true
    else if s == [] then false
    else if sub[|sub| - 1] == s[|s| - 1] then
      Subsequence(sub[..|sub| - 1], s[..|s| - 1])
    else
      Subsequence(sub, s[..|s| - 1])
  }

  lemma SplitAround<T>(s: seq<T>, j: nat)
    requires j < |s|
    ensures multiset(s) == multiset(s[..j] + s[j + 1..]) + multiset{s[j]}
  {
    assert s == s[..j] + [s[j]] + s[j + 1..];
  }

  /** Without its j-th element a sequence still ends in its last one. */
  lemma RemoveKeepsLast<T>(s: seq<T>, j: nat)
    requires j < |s|
    ensures var n := |s| - 1;
            s[..j] + s[j + 1..] == if j == n then s[..n] else s[..n][..j] + s[..n][j + 1..] + [s[n]]
  {
  }

  lemma SplitLast<T>(s: seq<T>)
    requires s != []
    ensures multiset(s) == multiset(s[..|s| - 1]) + multiset{s[|s| - 1]}
  {
    assert s == s[..|s| - 1] + [s[|s| - 1]];
  }

  /** Where in `b` the last element of a permutation of it sits. */
  lemma LastElsewhere<T>(a: seq<T>, b: seq<T>) returns (j: nat)
    requires a != [] && multiset(a) == multiset(b)
    ensures j < |b| && b[j] == a[|a| - 1]
    ensures multiset(a[..|a| - 1]) == multiset(b[..j] + b[j + 1..])
  {
    assert a[|a| - 1] in multiset(b);
    j :| 0 <= j < |b| && b[j] == a[|a| - 1];
    SplitLast(a);
    SplitAround(b, j);
    var x, rest := multiset(a[..|a| - 1]), multiset(b[..j] + b[j + 1..]);
    assert x == (x + multiset{b[j]}) - multiset{b[j]};
    assert rest == (rest + multiset{b[j]}) - multiset{b[j]};
  }

  lemma {:induction false} DistinctSameMultiset<T>(a: seq<T>, b: seq<T>)
    requires NoDup(a) && NoDup(b) && Elems(a) == Elems(b)
    ensures multiset(a) == multiset(b)
  {
    forall x ensures multiset(a)[x] == multiset(b)[x] {
      DistinctCount(a, x);
      DistinctCount(b, x);
      assert x in a <==> x in Elems(a);
      assert x in b <==> x in Elems(b);
    }
  }

  lemma {:induction false} DistinctCount<T>(s: seq<T>, x: T)
    requires NoDup(s)
    ensures multiset(s)[x] == if x in s then 1 else 0
  {
    if s != [] {
      DistinctCount(s[..|s| - 1], x);
      SplitLast(s);
      assert s == s[..|s| - 1] + [s[|s| - 1]];
    }
  }

  lemma RepeatCounts<T>(s: seq<T>, i: nat, j: nat)
    requires i < j < |s| && s[i] == s[j]
    ensures multiset(s)[s[i]] >= 2
  {
    assert s == s[..i] + [s[i]] + s[i + 1..j] + [s[j]] + s[j + 1..];
  }

  lemma SubsequenceBothGrow<T>(s: seq<T>, t: seq<T>, x: T)
    requires Subsequence(s, t)
    ensures Subsequence(s + [x], t + [x])
  {
    assert (s + [x])[..|s|] == s && (t + [x])[..|t|] == t;
  }

  /** A subsequence of all but the last element is one of the whole. */
  lemma {:induction false} SubsequenceWeaken<T>(s: seq<T>, t: seq<T>)
    requires t != [] && Subsequence(s, t[..|t| - 1])
    ensures Subsequence(s, t)
    decreases |t|, 0
  {
    var n := |t| - 1;
    if s != [] && s[|s| - 1] == t[n] {
      // match the last element here instead; the rest fits in what came before
      SubsequenceDropLast(s, t[..n]);
    }
  }

  lemma {:induction false} SubsequenceDropLast<T>(s: seq<T>, t: seq<T>)
    requires s != [] && Subsequence(s, t)
    ensures Subsequence(s[..|s| - 1], t)
    decreases |t|, 1
  {
    var n := |t| - 1;
    if s[|s| - 1] == t[n] {
      SubsequenceWeaken(s[..|s| - 1], t);
    } else {
      SubsequenceDropLast(s, t[..n]);
      SubsequenceWeaken(s[..|s| - 1], t);
    }
  }
}
