/** Whole runs of the tool gateway: where a cached payload comes from, how old it can
    be, and that caching does not change what callers see. */
module GatewayRuns {
  import opened Prelude
  import opened Roles
  import opened Json
  import opened ToolGateway

  /** A gateway registry over the shared table, with the reason for each row. */
  datatype World<!O> = World(policies: map<string, Policy<O>>, impls: map<string, Impl>, runId: string,
                             rows: seq<Row>, causes: seq<Cause<O>>)

  /** A fresh gateway on the same table, a registration, or a call. */
  datatype Op<!O> = Open(runId: string) | Register(policy: Policy<O>, impl: Impl) | Ask(query: Query)

  type Reply<O> = Result<ToolResult<O>, CallError>

  ghost predicate WellFormed<O(!new)>(w: World<O>) {
    w.policies.Keys == w.impls.Keys && forall name :: name in w.policies ==> w.policies[name].name == name
  }

  ghost function Next<O(!new)>(codec: Codec, w: World<O>, op: Op<O>, caching: bool): (w': World<O>)
    requires WellFormed(w)
    ensures WellFormed(w')
  {
    match op
    case Open(runId) => World(map[], map[], runId, w.rows, w.causes)
    case Register(p, impl) => w.(policies := w.policies[p.name := p], impls := w.impls[p.name := impl])
    case Ask(q) =>
      match Respond(codec, w.policies, w.impls, w.runId, w.rows, q, caching).logged
      case None => w
      case Some((row, cause)) => w.(rows := w.rows + [row], causes := w.causes + [cause])
  }

  ghost function Replies<O(!new)>(codec: Codec, w: World<O>, ops: seq<Op<O>>, caching: bool): seq<Reply<O>>
    requires WellFormed(w)
    decreases |ops|
  {
    if ops == [] then []
    else
      (if ops[0].Ask? then [Respond(codec, w.policies, w.impls, w.runId, w.rows, ops[0].query, caching).result] else [])
      + Replies(codec, Next(codec, w, ops[0], caching), ops[1..], caching)
  }

  ghost function After<O(!new)>(codec: Codec, w: World<O>, ops: seq<Op<O>>, caching: bool): (w': World<O>)
    requires WellFormed(w)
    ensures WellFormed(w')
    decreases |ops|
  {
    if ops == [] then w else After(codec, Next(codec, w, ops[0], caching), ops[1..], caching)
  }

  // ---- Audit --------------------------------------------------------------

  /** Every call past the registry and input checks leaves exactly one row, under its own
      run, role, time and input hash; the calls turned away earlier, and a cached payload
      the schema no longer accepts, leave none. */
  lemma EveryInvocationIsLogged<O(!new)>(codec: Codec, w: World<O>, q: Query, caching: bool)
    requires WellFormed(w)
    ensures var e := Respond(codec, w.policies, w.impls, w.runId, w.rows, q, caching);
            && (e.logged.None? <==>
                e.result.Err? && e.result.error in {ToolNotRegistered, ToolRoleDenied, InputInvalid,
                                                    CachedOutputInvalid})
            && (e.logged.Some? ==>
                  var row := e.logged.value.0;
                  && row.runId == w.runId && row.role == q.role && row.createdAt == q.now && row.tool == q.tool
                  && row.version == w.policies[q.tool].version
                  && (exists args :: w.policies[q.tool].contract.validateIn(q.args) == Some(args)
                                     && row.inputHash == InputHash(codec, args))
                  && (row.error.Some? || row.output.None? ==> e.result.Err?)
                  && (e.result.Ok? ==>
                        e.result.value.cacheHit == row.cacheHit && e.result.value.truncated == row.truncated))
  {
  }

  /** The row is one a lookup may choose: of this tool, version and hash, complete and
      without error, and not older than the TTL. */
  ghost predicate Servable(r: Row, tool: string, version: string, hash: string, now: real, ttl: int) {
    && r.tool == tool && r.version == version && r.inputHash == hash
    && !r.truncated && r.error == None && r.output != None && now - r.createdAt <= ttl as real
  }

  /** A call past the registry and input checks is answered from the table - or refused
      because the stored payload no longer validates - exactly if the tool is idempotent, has
      a TTL other than zero, and some row may be chosen; otherwise the tool runs. */
  lemma ServedExactlyWhen<O(!new)>(codec: Codec, w: World<O>, q: Query)
    requires WellFormed(w) && q.tool in w.policies && q.role in w.policies[q.tool].allowedRoles
    requires w.policies[q.tool].contract.validateIn(q.args).Some?
    ensures var p, e := w.policies[q.tool], Respond(codec, w.policies, w.impls, w.runId, w.rows, q, true);
            var hash := InputHash(codec, p.contract.validateIn(q.args).value);
            (e.result == Err(CachedOutputInvalid) || (e.result.Ok? && e.result.value.cacheHit)) <==>
            && p.idempotent && p.ttl.Some? && p.ttl.value != 0
            && exists i :: 0 <= i < |w.rows| && Servable(w.rows[i], q.tool, p.version, hash, q.now, p.ttl.value)
  {
    hide InputHash;
    var p := w.policies[q.tool];
    var hash := InputHash(codec, p.contract.validateIn(q.args).value);
    if p.ttl.Some? {
      var hit := Latest(w.rows, p, hash, q.now, p.ttl.value, q.tie, |w.rows|);
      forall i | 0 <= i < |w.rows|
        ensures Servable(w.rows[i], q.tool, p.version, hash, q.now, p.ttl.value) <==>
                Eligible(w.rows[i], p, hash, q.now, p.ttl.value)
      {
      }
      if hit.Some? { assert Servable(w.rows[hit.value], q.tool, p.version, hash, q.now, p.ttl.value); }
    }
  }

  /** A run's payload is replaced exactly if it is over the tool's limit, by a marker with
      its size; the caller gets the full output either way. */
  lemma TruncatesExactlyWhenTooLarge<O(!new)>(codec: Codec, p: Policy<O>, impl: Impl, runId: string, q: Query,
                                              args: Args, callId: nat, raw: Json, o: O)
    requires impl(args, q.tick) == Returned(raw) && p.contract.validateOut(raw) == Some(o)
    ensures var e, payload := RunTool(codec, p, impl, runId, q, args, callId), p.contract.dump(o);
            var tooLarge, size := codec.byteSize(payload) > p.contract.maxBytes, codec.byteSize(payload);
            && e.result == Ok(ToolResult(callId, o, false, tooLarge, p.trust))
            && e.logged.Some? && e.logged.value.0.output.Some?
            && var row := e.logged.value.0;
               && row.truncated == tooLarge && row.outputHash == Some(codec.digest(row.output.value))
               && if !tooLarge then row.output.value == payload
                  else At(row.output.value, [Field("_truncated")]) == Some(JBool(true))
                       && At(row.output.value, [Field("_byte_size")]) == Some(JNum(size as real))
  {
    assert [Field("_truncated")][1..] == [] && [Field("_byte_size")][1..] == [];
    assert "_truncated"[1] != "_byte_size"[1];
  }

  // ---- Provenance ---------------------------------------------------------

  /** The row is explained by its cause. */
  ghost predicate Explained<O(!new)>(codec: Codec, rows: seq<Row>, causes: seq<Cause<O>>, i: nat)
    requires i < |rows| && |causes| == |rows|
  {
    var row := rows[i];
    match causes[i]
    case Ran(p, args, outcome) =>
      && !row.cacheHit && row.tool == p.name && row.version == p.version && row.inputHash == InputHash(codec, args)
      && (Reusable(row) ==>
            && outcome.Returned?
            && exists o :: p.contract.validateOut(outcome.raw) == Some(o) && row.output == Some(p.contract.dump(o))
                           && codec.byteSize(p.contract.dump(o)) <= p.contract.maxBytes)
    case Served(j, ttl) =>
      && row.cacheHit && j < i && Reusable(rows[j]) && Reusable(row)
      && row.tool == rows[j].tool && row.version == rows[j].version && row.inputHash == rows[j].inputHash
      && row.output == rows[j].output && row.outputHash == rows[j].outputHash
      && row.createdAt - rows[j].createdAt <= ttl as real
  }

  ghost predicate AllExplained<O(!new)>(codec: Codec, w: World<O>) {
    |w.causes| == |w.rows| && forall i :: 0 <= i < |w.rows| ==> Explained(codec, w.rows, w.causes, i)
  }

  lemma NextKeepsExplained<O(!new)>(codec: Codec, w: World<O>, op: Op<O>, caching: bool)
    requires WellFormed(w) && AllExplained(codec, w)
    ensures AllExplained(codec, Next(codec, w, op, caching))
    ensures w.rows <= Next(codec, w, op, caching).rows
  {
    var w' := Next(codec, w, op, caching);
    if w'.rows != w.rows {
      var n := |w.rows|;
      forall i | 0 <= i < |w'.rows| ensures Explained(codec, w'.rows, w'.causes, i) {
        if i < n {
          assert Explained(codec, w.rows, w.causes, i);
        } else {
          assert w'.rows[i] == w'.rows[n] && w'.causes[i] == w'.causes[n];
        }
      }
    }
  }

  lemma {:induction false} RunsAreExplained<O(!new)>(codec: Codec, w: World<O>, ops: seq<Op<O>>, caching: bool)
    requires WellFormed(w) && AllExplained(codec, w)
    ensures AllExplained(codec, After(codec, w, ops, caching))
    ensures w.rows <= After(codec, w, ops, caching).rows
    decreases |ops|
  {
    if ops != [] {
      NextKeepsExplained(codec, w, ops[0], caching);
      RunsAreExplained(codec, Next(codec, w, ops[0], caching), ops[1..], caching);
    }
  }

  /** From the row back to the run of the implementation it stems from, oldest first. */
  ghost function Chain<O(!new)>(causes: seq<Cause<O>>, i: nat): seq<nat>
    requires i < |causes|
    decreases i
  {
    if causes[i].Served? && causes[i].source < i then Chain(causes, causes[i].source) + [i] else [i]
  }

  /** Consecutive chain members carry the same key and payload, and each was served
      within the TTL then in force for its predecessor, not for the original. */
  ghost predicate Link<O(!new)>(w: World<O>, i: nat, j: nat) {
    && i < j < |w.rows| == |w.causes|
    && w.causes[j].Served? && w.causes[j].source == i
    && w.rows[i].output == w.rows[j].output && w.rows[i].outputHash == w.rows[j].outputHash
    && w.rows[i].tool == w.rows[j].tool && w.rows[i].version == w.rows[j].version
      && w.rows[i].inputHash == w.rows[j].inputHash
    && w.rows[j].createdAt - w.rows[i].createdAt <= w.causes[j].ttl as real
  }

  /** The row records a successful, untruncated run of the implementation. */
  ghost predicate Genuine<O(!new)>(codec: Codec, w: World<O>, i: nat) {
    && i < |w.rows| == |w.causes| && w.causes[i].Ran? && !w.rows[i].cacheHit
    && w.causes[i].outcome.Returned?
    && exists o :: w.causes[i].policy.contract.validateOut(w.causes[i].outcome.raw) == Some(o)
                   && w.rows[i].output == Some(w.causes[i].policy.contract.dump(o))
  }

  /** Provenance: in any run, with arbitrary implementations, every reusable row - every
      hit among them - ends a chain of links that starts at a genuine run; no truncated
      or failed row is on it. */
  lemma {:induction false} EveryHitHasGenuineOrigin<O(!new)>(codec: Codec, w: World<O>, i: nat)
    requires AllExplained(codec, w) && i < |w.rows| && (Reusable(w.rows[i]) || w.rows[i].cacheHit)
    ensures var c := Chain(w.causes, i);
            && c != [] && c[|c| - 1] == i
            && (forall k :: 0 <= k < |c| ==> c[k] < |w.rows| && Reusable(w.rows[c[k]]))
            && Genuine(codec, w, c[0])
            && (forall k :: 0 <= k < |c| - 1 ==> Link(w, c[k], c[k + 1]))
    decreases i
  {
    assert Explained(codec, w.rows, w.causes, i);
    if w.causes[i].Served? {
      var j := w.causes[i].source;
      EveryHitHasGenuineOrigin(codec, w, j);
      var d, c := Chain(w.causes, j), Chain(w.causes, i);
      assert c == d + [i];
      assert forall k :: 0 <= k < |d| ==> c[k] == d[k];
      assert Link(w, j, i);
    }
  }

  /** What a hit returns is the payload of the genuine run at the head of its chain. */
  lemma HitReturnsOriginalPayload<O(!new)>(codec: Codec, w: World<O>, q: Query)
    requires WellFormed(w) && AllExplained(codec, w)
    requires var r := Respond(codec, w.policies, w.impls, w.runId, w.rows, q, true).result; r.Ok? && r.value.cacheHit
    ensures var w' := Next(codec, w, Ask(q), true);
            var r := Respond(codec, w.policies, w.impls, w.runId, w.rows, q, true).result;
            && AllExplained(codec, w') && |w'.rows| == |w.rows| + 1
            && var origin := Chain(w'.causes, |w.rows|)[0];
               && origin < |w.rows| && Genuine(codec, w', origin) && w'.rows[origin].output.Some?
               && w'.rows[origin].version == w.policies[q.tool].version
               && w.policies[q.tool].contract.validateOut(w'.rows[origin].output.value) == Some(r.value.output)
  {
    var w' := Next(codec, w, Ask(q), true);
    NextKeepsExplained(codec, w, Ask(q), true);
    var n := |w.rows|;
    EveryHitHasGenuineOrigin(codec, w', n);
    ChainKeepsPayload(codec, w', n);
    var c := Chain(w'.causes, n);
    assert Explained(codec, w'.rows, w'.causes, n);
    assert |c| > 1;
    ChainAscends(w', c, 0, |c| - 1);
  }

  /** A hit is served only to the question that was asked before: the arguments of the
      execution it stems from agree with those of the call on every path without a secret
      name. */
  lemma HitAnswersTheSameQuestion<O(!new)>(codec: Codec, w: World<O>, q: Query)
    requires WellFormed(w) && AllExplained(codec, w) && Injective(codec)
    requires var r := Respond(codec, w.policies, w.impls, w.runId, w.rows, q, true).result; r.Ok? && r.value.cacheHit
    ensures var w' := Next(codec, w, Ask(q), true);
            && |w'.causes| > |w.rows|
            && var origin := Chain(w'.causes, |w.rows|)[0];
               && origin < |w'.causes| && w'.causes[origin].Ran? && w'.causes[origin].policy.name == q.tool
               && var asked := w.policies[q.tool].contract.validateIn(q.args);
                  asked.Some? && AgreeOff(JObj(w'.causes[origin].args), JObj(asked.value))
  {
    hide AgreeOff, InputHash;
    var w', n := Next(codec, w, Ask(q), true), |w.rows|;
    HitReturnsOriginalPayload(codec, w, q);
    HitIsKeyed(codec, w, q);
    ChainKeepsPayload(codec, w', n);
    var origin := Chain(w'.causes, n)[0];
    assert Explained(codec, w'.rows, w'.causes, origin);
    HashesAgreeExactlyWhen(codec, w'.causes[origin].args, w.policies[q.tool].contract.validateIn(q.args).value);
  }

  lemma HitIsKeyed<O(!new)>(codec: Codec, w: World<O>, q: Query)
    requires WellFormed(w) && |w.rows| == |w.causes|
    requires var r := Respond(codec, w.policies, w.impls, w.runId, w.rows, q, true).result; r.Ok? && r.value.cacheHit
    ensures var w', n := Next(codec, w, Ask(q), true), |w.rows|;
            && |w'.rows| == n + 1 && |w'.causes| == n + 1 && w'.rows[n].cacheHit && w'.rows[n].tool == q.tool
            && w.policies[q.tool].contract.validateIn(q.args).Some?
            && w'.rows[n].inputHash == InputHash(codec, w.policies[q.tool].contract.validateIn(q.args).value)
  {
    hide InputHash;
  }

  lemma {:induction false} ChainAscends<O(!new)>(w: World<O>, c: seq<nat>, a: nat, b: nat)
    requires a <= b < |c| && forall k :: 0 <= k < |c| - 1 ==> Link(w, c[k], c[k + 1])
    ensures a < b ==> c[a] < c[b]
    decreases b - a
  {
    if a < b {
      ChainAscends(w, c, a + 1, b);
      assert Link(w, c[a], c[a + 1]);
    }
  }

  lemma {:induction false} ChainKeepsPayload<O(!new)>(codec: Codec, w: World<O>, i: nat)
    requires AllExplained(codec, w) && i < |w.rows| && (Reusable(w.rows[i]) || w.rows[i].cacheHit)
    ensures var h := Chain(w.causes, i)[0];
            && h < |w.rows| && w.rows[h].output == w.rows[i].output && w.rows[h].version == w.rows[i].version
            && w.rows[h].tool == w.rows[i].tool && w.rows[h].inputHash == w.rows[i].inputHash
    decreases i
  {
    assert Explained(codec, w.rows, w.causes, i);
    if w.causes[i].Served? { ChainKeepsPayload(codec, w, w.causes[i].source); }
  }

  // ---- Age of a served payload -------------------------------------------

  /** With TTLs at most `ttl`, a payload served through n links is at most n TTLs old.
      This, not one TTL, is what the lookup guarantees: hit rows are themselves eligible. */
  lemma {:induction false} AgeIsBoundedByLinks<O(!new)>(codec: Codec, w: World<O>, i: nat, ttl: int)
    requires AllExplained(codec, w) && i < |w.rows| && (Reusable(w.rows[i]) || w.rows[i].cacheHit) && ttl >= 0
    requires forall k :: 0 <= k < |w.causes| && w.causes[k].Served? ==> w.causes[k].ttl <= ttl
    ensures var c := Chain(w.causes, i);
            c[0] < |w.rows| && w.rows[i].createdAt - w.rows[c[0]].createdAt <= ((|c| - 1) * ttl) as real
    decreases i
  {
    assert Explained(codec, w.rows, w.causes, i);
    if w.causes[i].Served? {
      var j := w.causes[i].source;
      AgeIsBoundedByLinks(codec, w, j, ttl);
      var n := |Chain(w.causes, j)|;
      assert n * ttl == (n - 1) * ttl + ttl;
    }
  }

  /** A tool whose output is raw JSON and whose implementation always answers `v`. */
  function ConstantTool(v: Json, ttl: int): Policy<Json> {
    Policy("t", "1", {ResearcherWide}, Contract(a => Some(a), o => Some(o), (o: Json) => o, 1000), Some(ttl), true,
           TrustedInternal)
  }

  function AskAt(now: real): Query {
    Query(ResearcherWide, "t", map[], now, 0, i => 0)
  }

  /** Calls at times 0, ttl, 2*ttl, ... */
  function SpacedCalls(n: nat, ttl: int): seq<Op<Json>> {
    if n == 0 then [] else SpacedCalls(n - 1, ttl) + [Ask(AskAt(((n - 1) * ttl) as real))]
  }

  lemma {:induction false} AfterAppend<O(!new)>(codec: Codec, w: World<O>, a: seq<Op<O>>, op: Op<O>, caching: bool)
    requires WellFormed(w)
    ensures After(codec, w, a + [op], caching) == Next(codec, After(codec, w, a, caching), op, caching)
    decreases |a|
  {
    if a == [] {
      assert (a + [op])[1..] == [];
    } else {
      assert (a + [op])[1..] == a[1..] + [op];
      AfterAppend(codec, Next(codec, w, a[0], caching), a[1..], op, caching);
    }
  }

  /** The world before any call to it. */
  function ConstantWorld(v: Json, ttl: int): World<Json> {
    World(map["t" := ConstantTool(v, ttl)], map["t" := (a, t) => Returned(v)], "r", [], [])
  }

  /** After n spaced calls: the tool ran once, and each later row was served from the
      one before it. */
  ghost predicate Spaced(codec: Codec, v: Json, ttl: int, w: World<Json>, n: nat) {
    && w.policies == ConstantWorld(v, ttl).policies && w.impls == ConstantWorld(v, ttl).impls
    && |w.rows| == n && |w.causes| == n
    && (forall i :: 0 <= i < n ==> SpacedRow(codec, v, ttl, w.rows[i], i))
    && (forall i :: 0 < i < n ==> w.causes[i] == Served(i - 1, ttl))
    && (n > 0 ==> w.causes[0].Ran?)
  }

  ghost predicate SpacedRow(codec: Codec, v: Json, ttl: int, r: Row, i: nat) {
    && r.createdAt == (i * ttl) as real && r.cacheHit == (i > 0)
    && r.tool == "t" && r.version == "1" && Reusable(r) && r.output == Some(v)
    && r.inputHash == InputHash(codec, map[])
  }

  lemma NewestSpacedRow(codec: Codec, v: Json, ttl: int, w: World<Json>, n: nat)
    requires ttl > 0 && n > 0 && Spaced(codec, v, ttl, w, n)
    ensures Latest(w.rows, ConstantTool(v, ttl), InputHash(codec, map[]), (n * ttl) as real, ttl, i => 0, n)
            == Some(n - 1)
  {
    var p, now := ConstantTool(v, ttl), (n * ttl) as real;
    var tie: nat -> int := i => 0;
    var hit := Latest(w.rows, p, InputHash(codec, map[]), now, ttl, tie, n);
    assert SpacedRow(codec, v, ttl, w.rows[n - 1], n - 1);
    assert n * ttl - ttl == (n - 1) * ttl;
    assert Eligible(w.rows[n - 1], p, InputHash(codec, map[]), now, ttl);
    assert SpacedRow(codec, v, ttl, w.rows[hit.value], hit.value);
    if hit.value < n - 1 { MulGrows(hit.value, n - 1, ttl); }
  }

  lemma MulGrows(a: nat, b: nat, ttl: int)
    requires a < b && ttl > 0
    ensures a * ttl < b * ttl
  {
  }

  lemma SpacedCallServes(codec: Codec, v: Json, ttl: int, w: World<Json>, n: nat)
    requires ttl > 0 && codec.byteSize(v) <= 1000 && WellFormed(w) && Spaced(codec, v, ttl, w, n)
    ensures Spaced(codec, v, ttl, Next(codec, w, Ask(AskAt((n * ttl) as real)), true), n + 1)
  {
    var q := AskAt((n * ttl) as real);
    var p := ConstantTool(v, ttl);
    var w' := Next(codec, w, Ask(q), true);
    if n > 0 {
      NewestSpacedRow(codec, v, ttl, w, n);
      assert SpacedRow(codec, v, ttl, w.rows[n - 1], n - 1);
      assert Respond(codec, w.policies, w.impls, w.runId, w.rows, q, true) == ServeRow(p, w.runId, q, w.rows, n - 1);
    } else {
      assert Respond(codec, w.policies, w.impls, w.runId, w.rows, q, true)
          == RunTool(codec, p, w.impls["t"], w.runId, q, map[], 0);
    }
    forall i | 0 <= i < n + 1 ensures SpacedRow(codec, v, ttl, w'.rows[i], i) {
      if i < n { assert SpacedRow(codec, v, ttl, w.rows[i], i); }
    }
  }

  lemma {:induction false} SpacedRun(codec: Codec, v: Json, ttl: int, n: nat)
    requires ttl > 0 && codec.byteSize(v) <= 1000
    ensures Spaced(codec, v, ttl, After(codec, ConstantWorld(v, ttl), SpacedCalls(n, ttl), true), n)
  {
    if n > 0 {
      SpacedRun(codec, v, ttl, n - 1);
      AfterAppend(codec, ConstantWorld(v, ttl), SpacedCalls(n - 1, ttl), Ask(AskAt(((n - 1) * ttl) as real)), true);
      SpacedCallServes(codec, v, ttl, After(codec, ConstantWorld(v, ttl), SpacedCalls(n - 1, ttl), true), n - 1);
    }
  }

  lemma {:induction false} SpacedChain(codec: Codec, v: Json, ttl: int, w: World<Json>, n: nat, i: nat)
    requires Spaced(codec, v, ttl, w, n) && i < n
    ensures |Chain(w.causes, i)| == i + 1 && Chain(w.causes, i)[0] == 0
  {
    if i > 0 { SpacedChain(codec, v, ttl, w, n, i - 1); }
  }

  /** The bound is reached: called once per TTL, the gateway runs the tool once and then
      serves that first answer for ever, each time one TTL older. So a payload served
      under a TTL may be any number of TTLs old. */
  lemma TtlIsSliding(codec: Codec, v: Json, ttl: int, n: nat)
    requires ttl > 0 && codec.byteSize(v) <= 1000
    ensures var w := After(codec, ConstantWorld(v, ttl), SpacedCalls(n + 1, ttl), true);
            && |w.rows| == n + 1 && |w.causes| == n + 1
            && (forall i :: 0 <= i <= n ==> w.rows[i].cacheHit == (i > 0))
            && |Chain(w.causes, n)| == n + 1 && Chain(w.causes, n)[0] == 0
            && w.rows[n].createdAt - w.rows[0].createdAt == (n * ttl) as real
  {
    SpacedRun(codec, v, ttl, n + 1);
    var w := After(codec, ConstantWorld(v, ttl), SpacedCalls(n + 1, ttl), true);
    SpacedChain(codec, v, ttl, w, n + 1, n);
    assert SpacedRow(codec, v, ttl, w.rows[n], n) && SpacedRow(codec, v, ttl, w.rows[0], 0);
    assert forall i :: 0 <= i <= n ==> SpacedRow(codec, v, ttl, w.rows[i], i);
  }

  // ---- Caching refines not caching ---------------------------------------

  /** What a (tool, version) pair stands for. */
  datatype Tool<!O> = Tool(contract: Contract<O>, impl: Impl)

  /** Every registration of a known version brings that version's schemas and code. */
  ghost predicate Conforms<O(!new)>(catalog: map<(string, string), Tool<O>>, p: Policy<O>, impl: Impl) {
    (p.name, p.version) in catalog && catalog[(p.name, p.version)] == Tool(p.contract, impl)
  }

  /** The answer is determined by the sanitized arguments, and validating a dumped model
      gives the model back. */
  ghost predicate Replayable<O(!new)>(t: Tool<O>) {
    && (forall a, b, t1, t2 :: SanitizeArgs(a) == SanitizeArgs(b) ==> t.impl(a, t1) == t.impl(b, t2))
    && (forall raw, o :: t.contract.validateOut(raw) == Some(o) ==>
          t.contract.validateOut(t.contract.dump(o)) == Some(o))
  }

  ghost predicate Catalogued<O(!new)>(codec: Codec, catalog: map<(string, string), Tool<O>>) {
    && (forall key :: key in catalog ==> Replayable(catalog[key]))
    && Injective(codec)
  }

  /** A reusable row of a catalogued version holds what its tool answers for any
      arguments with the row's hash. */
  ghost predicate Sound<O(!new)>(codec: Codec, catalog: map<(string, string), Tool<O>>, r: Row) {
    Reusable(r) && (r.tool, r.version) in catalog ==>
      var t := catalog[(r.tool, r.version)];
      exists args, raw, o ::
        && InputHash(codec, args) == r.inputHash && t.impl(args, 0) == Returned(raw)
        && t.contract.validateOut(raw) == Some(o) && r.output == Some(t.contract.dump(o))
        && codec.byteSize(t.contract.dump(o)) <= t.contract.maxBytes
  }

  ghost predicate Coherent<O(!new)>(codec: Codec, catalog: map<(string, string), Tool<O>>, w: World<O>) {
    && WellFormed(w)
    && (forall name :: name in w.policies ==> Conforms(catalog, w.policies[name], w.impls[name]))
    && (forall i :: 0 <= i < |w.rows| ==> Sound(codec, catalog, w.rows[i]))
  }

  /** The caller's view: the flag saying whether the cache was used, and the id of the
      log row, are bookkeeping. */
  ghost predicate SameAnswer<O(!new)>(a: Reply<O>, b: Reply<O>) {
    match (a, b)
    case (Ok(x), Ok(y)) => x.output == y.output && x.truncated == y.truncated && x.trust == y.trust
    case (Err(x), Err(y)) => x == y
    case _ => false
  }

  /** Serving a sound row gives the answer that running the tool would give. */
  lemma ServingAgreesWithRunning<O(!new)>(codec: Codec, catalog: map<(string, string), Tool<O>>, p: Policy<O>,
                                          impl: Impl, runId: string, q: Query, args: Args, rows: seq<Row>,
                                          source: nat, callId: nat)
    requires Catalogued(codec, catalog) && Conforms(catalog, p, impl) && p.ttl.Some?
    requires source < |rows| && Sound(codec, catalog, rows[source]) && Reusable(rows[source])
    requires rows[source].tool == p.name && rows[source].version == p.version
             && rows[source].inputHash == InputHash(codec, args)
    ensures var e := ServeRow(p, runId, q, rows, source);
            && SameAnswer(e.result, RunTool(codec, p, impl, runId, q, args, callId).result)
            && e.logged.Some? && Sound(codec, catalog, e.logged.value.0)
  {
    var t, src := catalog[(p.name, p.version)], rows[source];
    assert Replayable(t);
    var args', raw, o :|
      && InputHash(codec, args') == src.inputHash && t.impl(args', 0) == Returned(raw)
      && t.contract.validateOut(raw) == Some(o) && src.output == Some(t.contract.dump(o))
      && codec.byteSize(t.contract.dump(o)) <= t.contract.maxBytes;
    assert SanitizeArgs(args') == SanitizeArgs(args);
    assert impl(args, q.tick) == Returned(raw);
  }

  lemma RunningIsSound<O(!new)>(codec: Codec, catalog: map<(string, string), Tool<O>>, p: Policy<O>, impl: Impl,
                                runId: string, q: Query, args: Args, callId: nat)
    requires Catalogued(codec, catalog) && Conforms(catalog, p, impl)
    ensures var e := RunTool(codec, p, impl, runId, q, args, callId);
            e.logged.Some? && Sound(codec, catalog, e.logged.value.0)
  {
    hide InputHash;
    var t := catalog[(p.name, p.version)];
    assert Replayable(t);
    assert t.impl(args, q.tick) == t.impl(args, 0);
  }

  lemma OneCallRefines<O(!new)>(codec: Codec, catalog: map<(string, string), Tool<O>>, w: World<O>, plain: seq<Row>,
                                q: Query)
    requires Catalogued(codec, catalog) && Coherent(codec, catalog, w)
    ensures SameAnswer(Respond(codec, w.policies, w.impls, w.runId, w.rows, q, true).result,
                       Respond(codec, w.policies, w.impls, w.runId, plain, q, false).result)
    ensures Coherent(codec, catalog, Next(codec, w, Ask(q), true))
  {
    hide Latest, InputHash, Sound, Conforms, ServeRow, RunTool, Catalogued;
    if q.tool in w.policies && q.role in w.policies[q.tool].allowedRoles
        && w.policies[q.tool].contract.validateIn(q.args).Some? {
      var p, impl := w.policies[q.tool], w.impls[q.tool];
      var args := p.contract.validateIn(q.args).value;
      assert Conforms(catalog, p, impl);
      RunningIsSound(codec, catalog, p, impl, w.runId, q, args, |w.rows|);
      RunningAgrees(codec, p, impl, w.runId, q, args, |w.rows|, |plain|);
      if p.Cached() {
        var hit := Latest(w.rows, p, InputHash(codec, args), q.now, p.ttl.value, q.tie, |w.rows|);
        if hit.Some? {
          assert Sound(codec, catalog, w.rows[hit.value]);
          ServingAgreesWithRunning(codec, catalog, p, impl, w.runId, q, args, w.rows, hit.value, |plain|);
        }
      }
    }
  }

  /** The log position is the only thing an answer takes from the table. */
  lemma RunningAgrees<O(!new)>(codec: Codec, p: Policy<O>, impl: Impl, runId: string, q: Query, args: Args, m: nat,
                               n: nat)
    ensures SameAnswer(RunTool(codec, p, impl, runId, q, args, m).result,
                       RunTool(codec, p, impl, runId, q, args, n).result)
    ensures RunTool(codec, p, impl, runId, q, args, m).logged == RunTool(codec, p, impl, runId, q, args, n).logged
  {
  }

  ghost predicate SameRegistry<O(!new)>(w: World<O>, v: World<O>) {
    WellFormed(w) && WellFormed(v) && w.policies == v.policies && w.impls == v.impls && w.runId == v.runId
  }

  ghost predicate Admissible<O(!new)>(catalog: map<(string, string), Tool<O>>, op: Op<O>) {
    op.Register? ==> Conforms(catalog, op.policy, op.impl)
  }

  lemma StepRefines<O(!new)>(codec: Codec, catalog: map<(string, string), Tool<O>>, w: World<O>, plain: World<O>,
                             op: Op<O>)
    requires Catalogued(codec, catalog) && Coherent(codec, catalog, w) && SameRegistry(w, plain)
             && Admissible(catalog, op)
    ensures Coherent(codec, catalog, Next(codec, w, op, true))
    ensures SameRegistry(Next(codec, w, op, true), Next(codec, plain, op, false))
    ensures op.Ask? ==> SameAnswer(Respond(codec, w.policies, w.impls, w.runId, w.rows, op.query, true).result,
                                   Respond(codec, plain.policies, plain.impls, plain.runId, plain.rows, op.query,
                                           false).result)
  {
    hide Respond, Sound, Conforms, Catalogued, SameAnswer;
    if op.Ask? { OneCallRefines(codec, catalog, w, plain.rows, op.query); }
  }

  /** Over any sequence of openings, registrations and calls, at any times, the cached
      gateway answers exactly as the same gateway with the cache switched off. */
  lemma {:induction false} CachingIsInvisible<O(!new)>(codec: Codec, catalog: map<(string, string), Tool<O>>,
                                                 w: World<O>, plain: World<O>, ops: seq<Op<O>>)
    requires Catalogued(codec, catalog) && Coherent(codec, catalog, w) && SameRegistry(w, plain)
    requires forall i :: 0 <= i < |ops| ==> Admissible(catalog, ops[i])
    ensures var cached, direct := Replies(codec, w, ops, true), Replies(codec, plain, ops, false);
            |cached| == |direct| && forall i :: 0 <= i < |cached| ==> SameAnswer(cached[i], direct[i])
    decreases |ops|
  {
    hide Respond, Next, Coherent, Catalogued, SameAnswer, Admissible;
    if ops != [] {
      StepRefines(codec, catalog, w, plain, ops[0]);
      CachingIsInvisible(codec, catalog, Next(codec, w, ops[0], true), Next(codec, plain, ops[0], false), ops[1..]);
    }
  }
}
