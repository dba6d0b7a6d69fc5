/** How old a cached payload is (runtime/tool_gateway.py, _lookup_cache). The TTL is
    compared with the age of the row served, and rows that record hits are served too;
    here is exactly when it also bounds the age of the payload. */
module Freshness {
  import opened Prelude
  import opened ToolGateway
  import opened GatewayRuns

  /** Whoever registers this version of the tool lets it be cached, under a positive TTL
      of their own choice. */
  predicate AlwaysCached<O>(p: Policy<O>, tool: string, version: string) {
    p.name == tool && p.version == version ==> p.idempotent && p.ttl.Some? && p.ttl.value > 0
  }

  predicate SameKey(a: Row, b: Row) {
    a.tool == b.tool && a.version == b.version && a.inputHash == b.inputHash
  }

  /** A row served was the newest reusable one of its key, and the tool ran only when
      none of them was within the TTL. */
  ghost predicate InTurn<O(!new)>(w: World<O>, i: nat)
    requires i < |w.rows| == |w.causes|
  {
    var row := w.rows[i];
    match w.causes[i]
    case Served(s, _) =>
      s < i && forall j :: 0 <= j < i && Reusable(w.rows[j]) && SameKey(w.rows[j], row) ==>
          w.rows[j].createdAt <= w.rows[s].createdAt
    case Ran(p, _, _) =>
      && p.ttl.Some? && p.ttl.value > 0
      && forall j :: 0 <= j < i && Reusable(w.rows[j]) && SameKey(w.rows[j], row) ==>
           w.rows[j].createdAt < row.createdAt - p.ttl.value as real
  }

  ghost predicate Ordered<O(!new)>(codec: Codec, w: World<O>, tool: string, version: string) {
    && WellFormed(w) && AllExplained(codec, w)
    && (forall name :: name in w.policies ==> AlwaysCached(w.policies[name], tool, version))
    && (forall i, j :: 0 <= i < j < |w.rows| ==> w.rows[i].createdAt <= w.rows[j].createdAt)
    && (forall i :: 0 <= i < |w.rows| && w.rows[i].tool == tool && w.rows[i].version == version ==> InTurn(w, i))
  }

  /** No row is later than `t`. */
  ghost predicate Until<O(!new)>(w: World<O>, t: real) {
    forall i :: 0 <= i < |w.rows| ==> w.rows[i].createdAt <= t
  }

  function TimeAfter<O>(op: Op<O>, t: real): real {
    if op.Ask? then op.query.now else t
  }

  /** From time `t` on the clock never goes back, and the tool version stays cached. */
  ghost predicate Timely<O(!new)>(ops: seq<Op<O>>, tool: string, version: string, t: real)
    decreases |ops|
  {
    ops == [] ||
    (&& (ops[0].Register? ==> AlwaysCached(ops[0].policy, tool, version))
     && t <= TimeAfter(ops[0], t) && Timely(ops[1..], tool, version, TimeAfter(ops[0], t)))
  }

  /** Which reusable rows of the key the lookup leaves: none newer than the one chosen,
      and only expired ones when it chooses none. */
  lemma LookupSettles<O(!new)>(rows: seq<Row>, p: Policy<O>, hash: string, now: real, ttl: int, tie: nat -> int,
                               row: Row, j: nat)
    requires row.tool == p.name && row.version == p.version && row.inputHash == hash
    requires j < |rows| && Reusable(rows[j]) && SameKey(rows[j], row)
    ensures match Latest(rows, p, hash, now, ttl, tie, |rows|)
            case Some(s) => s < |rows| && (now - ttl as real <= rows[s].createdAt)
                && rows[j].createdAt <= rows[s].createdAt
            case None => rows[j].createdAt < now - ttl as real
  {
    assert Eligible(rows[j], p, hash, now, ttl) <==> rows[j].createdAt >= now - ttl as real;
  }

  /** The row a call appends is in turn. */
  lemma CallIsInTurn<O(!new)>(codec: Codec, w: World<O>, q: Query, tool: string, version: string)
    requires Ordered(codec, w, tool, version)
    ensures var w', n := Next(codec, w, Ask(q), true), |w.rows|;
            && |w'.rows| == |w'.causes|
            && (|w'.rows| > n && w'.rows[n].tool == tool && w'.rows[n].version == version ==> InTurn(w', n))
  {
    hide AllExplained, InputHash, Latest;
    ExplainedHasCauses(codec, w);
    var w', n := Next(codec, w, Ask(q), true), |w.rows|;
    if |w'.rows| > n && w'.rows[n].tool == tool && w'.rows[n].version == version {
      var p := w.policies[q.tool];
      var hash, ttl := InputHash(codec, p.contract.validateIn(q.args).value), p.ttl.value;
      var hit := Latest(w.rows, p, hash, q.now, ttl, q.tie, n);
      assert p.Cached() && w'.rows[n].inputHash == hash;
      forall j | 0 <= j < n && Reusable(w'.rows[j]) && SameKey(w'.rows[j], w'.rows[n])
        ensures if hit.Some? then w.rows[j].createdAt <= w.rows[hit.value].createdAt
                else w.rows[j].createdAt < q.now - ttl as real
      {
        LookupSettles(w.rows, p, hash, q.now, ttl, q.tie, w'.rows[n], j);
      }
    }
  }

  lemma ExplainedHasCauses<O(!new)>(codec: Codec, w: World<O>)
    requires AllExplained(codec, w)
    ensures |w.rows| == |w.causes|
  {
  }

  lemma InTurnStays<O(!new)>(w: World<O>, w': World<O>, i: nat)
    requires i < |w.rows| == |w.causes| && |w'.rows| == |w'.causes| && w.rows <= w'.rows && w.causes <= w'.causes
             && InTurn(w, i)
    ensures InTurn(w', i)
  {
  }

  lemma NextKeepsOrder<O(!new)>(codec: Codec, w: World<O>, op: Op<O>, tool: string, version: string, t: real)
    requires Ordered(codec, w, tool, version) && Until(w, t) && t <= TimeAfter(op, t)
    requires op.Register? ==> AlwaysCached(op.policy, tool, version)
    ensures Ordered(codec, Next(codec, w, op, true), tool, version) && Until(Next(codec, w, op, true), TimeAfter(op, t))
  {
    hide Explained, InTurn, Respond, AlwaysCached;
    var w' := Next(codec, w, op, true);
    NextKeepsExplained(codec, w, op, true);
    ExplainedHasCauses(codec, w');
    if op.Ask? {
      CallIsInTurn(codec, w, op.query, tool, version);
      CallIsDated(codec, w, op.query);
    }
    forall i | 0 <= i < |w'.rows| && w'.rows[i].tool == tool && w'.rows[i].version == version ensures InTurn(w', i) {
      if i < |w.rows| { InTurnStays(w, w', i); }
    }
  }

  lemma CallIsDated<O(!new)>(codec: Codec, w: World<O>, q: Query)
    requires WellFormed(w)
    ensures var w' := Next(codec, w, Ask(q), true);
            w' == w || (|w'.rows| == |w.rows| + 1 && w.rows <= w'.rows && w'.rows[|w.rows|].createdAt == q.now)
  {
    hide Latest, InputHash;
  }

  lemma {:induction false} RunsKeepOrder<O(!new)>(codec: Codec, w: World<O>, ops: seq<Op<O>>, tool: string,
                                                  version: string, t: real)
    requires Ordered(codec, w, tool, version) && Until(w, t) && Timely(ops, tool, version, t)
    ensures Ordered(codec, After(codec, w, ops, true), tool, version)
    decreases |ops|
  {
    hide Ordered, Until, AlwaysCached, Next;
    OrderedIsWellFormed(codec, w, tool, version);
    if ops != [] {
      NextKeepsOrder(codec, w, ops[0], tool, version, t);
      RunsKeepOrder(codec, Next(codec, w, ops[0], true), ops[1..], tool, version, TimeAfter(ops[0], t));
    }
  }

  lemma OrderedIsWellFormed<O(!new)>(codec: Codec, w: World<O>, tool: string, version: string)
    requires Ordered(codec, w, tool, version)
    ensures WellFormed(w) && AllExplained(codec, w)
  {
  }

  /** A chain never reaches back past an execution of its key: the rows before it had
      expired when the tool ran, and what is served is the newest. */
  lemma {:induction false} ChainStartsNoEarlier<O(!new)>(codec: Codec, w: World<O>, tool: string, version: string,
                                                         g: nat, i: nat)
    requires Ordered(codec, w, tool, version) && g <= i < |w.rows|
    requires w.rows[g].tool == tool && w.rows[g].version == version && Reusable(w.rows[g]) && !w.rows[g].cacheHit
    requires SameKey(w.rows[g], w.rows[i]) && Reusable(w.rows[i])
    ensures g <= Chain(w.causes, i)[0] < |w.rows|
    decreases i
  {
    assert Explained(codec, w.rows, w.causes, g) && Explained(codec, w.rows, w.causes, i);
    assert InTurn(w, g) && InTurn(w, i);
    if w.causes[i].Served? {
      ChainStartsNoEarlier(codec, w, tool, version, g, w.causes[i].source);
    }
  }

  lemma {:induction false} ChainKeepsKey<O(!new)>(codec: Codec, w: World<O>, i: nat)
    requires AllExplained(codec, w) && i < |w.rows| && (Reusable(w.rows[i]) || w.rows[i].cacheHit)
    ensures Chain(w.causes, i)[0] < |w.rows| && SameKey(w.rows[Chain(w.causes, i)[0]], w.rows[i])
    decreases i
  {
    assert Explained(codec, w.rows, w.causes, i);
    if w.causes[i].Served? { ChainKeepsKey(codec, w, w.causes[i].source); }
  }

  /** The lookup restricted to rows that are not hits themselves finds something. */
  ghost predicate GenuineEligible<O(!new)>(w: World<O>, p: Policy<O>, hash: string, now: real, ttl: int) {
    exists g :: 0 <= g < |w.rows| && Eligible(w.rows[g], p, hash, now, ttl) && !w.rows[g].cacheHit
  }

  /** The payload of the row the lookup chooses is within the TTL exactly when the lookup
      would have found a row that is not a hit itself. */
  lemma ChosenIsFreshExactlyWhen<O(!new)>(codec: Codec, w: World<O>, p: Policy<O>, hash: string, now: real, ttl: int,
                                          tie: nat -> int, j: nat)
    requires Ordered(codec, w, p.name, p.version) && Latest(w.rows, p, hash, now, ttl, tie, |w.rows|) == Some(j)
    ensures Chain(w.causes, j)[0] < |w.rows|
    ensures now - w.rows[Chain(w.causes, j)[0]].createdAt <= ttl as real <==> GenuineEligible(w, p, hash, now, ttl)
  {
    hide Latest, Explained, InTurn, Chain, AlwaysCached;
    ChosenIsNewest(w, p, hash, now, ttl, tie, j);
    EveryHitHasGenuineOrigin(codec, w, j);
    ChainKeepsKey(codec, w, j);
    var origin := Chain(w.causes, j)[0];
    assert Eligible(w.rows[origin], p, hash, now, ttl) <==> w.rows[origin].createdAt >= now - ttl as real;
    if GenuineEligible(w, p, hash, now, ttl) {
      var g :| 0 <= g < |w.rows| && Eligible(w.rows[g], p, hash, now, ttl) && !w.rows[g].cacheHit;
      if j < g { LaterExecutionIsNewer(codec, w, p.name, p.version, j, g); }
      ChainStartsNoEarlier(codec, w, p.name, p.version, g, j);
    }
  }

  lemma LaterExecutionIsNewer<O(!new)>(codec: Codec, w: World<O>, tool: string, version: string, j: nat, g: nat)
    requires Ordered(codec, w, tool, version) && j < g < |w.rows| && !w.rows[g].cacheHit
    requires w.rows[g].tool == tool && w.rows[g].version == version && SameKey(w.rows[j], w.rows[g])
             && Reusable(w.rows[j])
    ensures w.rows[j].createdAt < w.rows[g].createdAt
  {
    assert Explained(codec, w.rows, w.causes, g) && InTurn(w, g);
  }

  lemma ChosenIsNewest<O(!new)>(w: World<O>, p: Policy<O>, hash: string, now: real, ttl: int, tie: nat -> int, j: nat)
    requires Latest(w.rows, p, hash, now, ttl, tie, |w.rows|) == Some(j)
    ensures j < |w.rows| && Eligible(w.rows[j], p, hash, now, ttl)
    ensures forall g :: 0 <= g < |w.rows| && Eligible(w.rows[g], p, hash, now, ttl) ==>
              w.rows[g].createdAt <= w.rows[j].createdAt
  {
  }

  /** Over any run in which the tool version stays cached and the clock never goes back:
      a payload served from the cache is at most one TTL old if and only if the lookup,
      with hit rows left out, finds a row. */
  lemma HitIsFreshExactlyWhen<O(!new)>(codec: Codec, start: World<O>, ops: seq<Op<O>>, q: Query, version: string,
                                       t: real)
    requires Ordered(codec, start, q.tool, version) && Until(start, t) && Timely(ops, q.tool, version, t)
    requires var w := After(codec, start, ops, true);
             && q.tool in w.policies && w.policies[q.tool].version == version
             && var r := Respond(codec, w.policies, w.impls, w.runId, w.rows, q, true).result;
                r.Ok? && r.value.cacheHit
    ensures var w := After(codec, start, ops, true);
            var p, w' := w.policies[q.tool], Next(codec, w, Ask(q), true);
            && p.ttl.Some? && p.contract.validateIn(q.args).Some?
            && |w'.causes| > |w.rows| && Chain(w'.causes, |w.rows|)[0] < |w'.rows|
            && var age := q.now - w'.rows[Chain(w'.causes, |w.rows|)[0]].createdAt;
               age <= p.ttl.value as real
               <==> GenuineEligible(w, p, InputHash(codec, p.contract.validateIn(q.args).value), q.now, p.ttl.value)
  {
    hide Ordered, GenuineEligible, InputHash, Timely, Until, Respond, Latest;
    OrderedIsWellFormed(codec, start, q.tool, version);
    var w := After(codec, start, ops, true);
    RunsKeepOrder(codec, start, ops, q.tool, version, t);
    OrderedIsWellFormed(codec, w, q.tool, version);
    ExplainedHasCauses(codec, w);
    var p := w.policies[q.tool];
    var j := HitSource(codec, w, q);
    var hash := InputHash(codec, p.contract.validateIn(q.args).value);
    ChosenIsFreshExactlyWhen(codec, w, p, hash, q.now, p.ttl.value, q.tie, j);
    ChainPrefix(w.causes, Next(codec, w, Ask(q), true).causes, j);
  }

  /** What a hit appends, and that its source is the row chosen. */
  lemma HitSource<O(!new)>(codec: Codec, w: World<O>, q: Query) returns (j: nat)
    requires WellFormed(w) && |w.rows| == |w.causes|
    requires var r := Respond(codec, w.policies, w.impls, w.runId, w.rows, q, true).result; r.Ok? && r.value.cacheHit
    ensures q.tool in w.policies && w.policies[q.tool].ttl.Some? && w.policies[q.tool].contract.validateIn(q.args).Some?
    ensures var p, w' := w.policies[q.tool], Next(codec, w, Ask(q), true);
            && Latest(w.rows, p, InputHash(codec, p.contract.validateIn(q.args).value), q.now, p.ttl.value, q.tie,
                      |w.rows|) == Some(j)
            && w'.causes == w.causes + [Served(j, p.ttl.value)] && w.rows <= w'.rows && |w'.rows| == |w.rows| + 1
  {
    hide InputHash;
    var p := w.policies[q.tool];
    j := Latest(w.rows, p, InputHash(codec, p.contract.validateIn(q.args).value), q.now, p.ttl.value, q.tie,
                |w.rows|).value;
  }

  lemma {:induction false} ChainPrefix<O(!new)>(causes: seq<Cause<O>>, more: seq<Cause<O>>, i: nat)
    requires i < |causes| && causes <= more
    ensures Chain(causes, i) == Chain(more, i)
    decreases i
  {
    if causes[i].Served? && causes[i].source < i { ChainPrefix(causes, more, causes[i].source); }
  }
}
