/** The tool gateway (runtime/tool_gateway.py): role check, input and output validation,
    and a result cache that is nothing but the append-only audit table. */
module ToolGateway {
  import opened Prelude
  import opened Roles
  import opened Errors
  import opened Json

  datatype ResultTrust = TrustedInternal | UntrustedContent

  /** How an implementation answers: a raw value, or an exception with its category. */
  datatype ImplOutcome = Returned(raw: Json) | Threw(category: Option<ErrorCategory>)

  /** An implementation sees the validated arguments, unsanitized, and, through the
      second argument, whatever state the outside world is in. */
  type Impl = (Args, nat) -> ImplOutcome

  /** The two schemas of a tool and the truncation threshold. `validateIn` is model
      validation followed by the dump back to a dictionary. */
  datatype Contract<!O> = Contract(validateIn: Args -> Option<Args>, validateOut: Json -> Option<O>,
                                   dump: O -> Json, maxBytes: nat)

  datatype Policy<!O> = Policy(name: string, version: string, allowedRoles: set<AgentRole>, contract: Contract<O>,
                               ttl: Option<int>, idempotent: bool, trust: ResultTrust)
  {
    /** The cache is consulted for idempotent tools with a TTL that is set and not zero. */
    predicate Cached() { idempotent && ttl.Some? && ttl.value != 0 }
  }

  /** One row of tool_calls; its index in the table stands for the call id. */
  datatype Row = Row(runId: string, tool: string, version: string, role: AgentRole, inputHash: string,
                     output: Option<Json>, outputHash: Option<string>, trust: ResultTrust,
                     cacheHit: bool, truncated: bool, error: Option<ErrorCategory>, createdAt: real)

  datatype ToolResult<+O> = ToolResult(callId: nat, output: O, cacheHit: bool, truncated: bool, trust: ResultTrust)

  datatype CallError =
    | ToolNotRegistered | ToolRoleDenied | InputInvalid
    | ImplFailed(category: Option<ErrorCategory>) | OutputInvalid | CachedOutputInvalid
    | ArgumentClash

  /** SHA-256 of the canonical text, and the encoded size, of a JSON value. */
  datatype Codec = Codec(digest: Json -> string, byteSize: Json -> nat)

  /** One call. `now` is the transaction's timestamp; `tick` the state of the outside
      world; `tie` decides between rows with equal timestamps, which SQL leaves open. */
  datatype Query = Query(role: AgentRole, tool: string, args: Args, now: real, tick: nat, tie: nat -> int)

  function InputHash(codec: Codec, args: Args): string {
    codec.digest(JObj(SanitizeArgs(args)))
  }

  /** Different JSON values have different digests. */
  ghost predicate Injective(codec: Codec) {
    forall a, b :: codec.digest(a) == codec.digest(b) ==> a == b
  }

  /** Two calls share an input hash exactly if their arguments agree wherever no secret
      name leads: every other difference, however deep, makes a different key. */
  lemma HashesAgreeExactlyWhen(codec: Codec, a: Args, b: Args)
    requires Injective(codec)
    ensures InputHash(codec, a) == InputHash(codec, b) <==> AgreeOff(JObj(a), JObj(b))
  {
    hide AgreeOff, SanitizeArgs;
    SanitizesAlikeExactlyWhen(a, b);
  }

  // ---- Cache lookup -------------------------------------------------------

  /** A row whose payload may be served again. */
  predicate Reusable(r: Row) {
    !r.truncated && r.error.None? && r.output.Some?
  }

  predicate Eligible<O>(r: Row, p: Policy<O>, hash: string, now: real, ttl: int) {
    r.tool == p.name && r.version == p.version && r.inputHash == hash
    && Reusable(r) && r.createdAt >= now - ttl as real
  }

  predicate Beats(rows: seq<Row>, tie: nat -> int, i: nat, j: nat)
    requires i < |rows| && j < |rows|
  {
    rows[i].createdAt > rows[j].createdAt || (rows[i].createdAt == rows[j].createdAt && tie(i) > tie(j))
  }

  /** The most recent eligible row among the first `n`. */
  function Latest<O>(rows: seq<Row>, p: Policy<O>, hash: string, now: real, ttl: int, tie: nat -> int,
                     n: nat): (r: Option<nat>)
    requires n <= |rows|
    ensures r.Some? ==> r.value < n && Eligible(rows[r.value], p, hash, now, ttl)
    ensures r.Some? ==> forall j :: 0 <= j < n && Eligible(rows[j], p, hash, now, ttl) ==>
                                      rows[j].createdAt <= rows[r.value].createdAt
    ensures r.None? ==> forall j :: 0 <= j < n ==> !Eligible(rows[j], p, hash, now, ttl)
  {
    if n == 0 then None
    else
      var best := Latest(rows, p, hash, now, ttl, tie, n - 1);
      if !Eligible(rows[n - 1], p, hash, now, ttl) then best
      else if best.None? || Beats(rows, tie, n - 1, best.value) then Some(n - 1)
      else best
  }

  // ---- One call -----------------------------------------------------------

  /** Why a row is in the table: an implementation ran, or an earlier row was served. */
  datatype Cause<!O> =
    | Ran(policy: Policy<O>, args: Args, outcome: ImplOutcome)
    | Served(source: nat, ttl: int)

  /** The row, if any, that a call appends, and what the caller gets. */
  datatype Effect<!O> = Effect(logged: Option<(Row, Cause<O>)>, result: Result<ToolResult<O>, CallError>)

  function TruncationMarker(size: nat): Json {
    JObj(map["_truncated" := JBool(true), "_byte_size" := JNum(size as real)])
  }

  /** Running the implementation: every outcome leaves one row. */
  function RunTool<O>(codec: Codec, p: Policy<O>, impl: Impl, runId: string, q: Query, args: Args,
                      callId: nat): Effect<O> {
    var outcome := impl(args, q.tick);
    var failed := Row(runId, p.name, p.version, q.role, InputHash(codec, args), None, None, p.trust, false, false,
                      None, q.now);
    match outcome
    case Threw(category) =>
      Effect(Some((failed.(error := category), Ran(p, args, outcome))), Err(ImplFailed(category)))
    case Returned(raw) =>
      match p.contract.validateOut(raw)
      case None =>
        Effect(Some((failed.(error := Some(SchemaInvalid)), Ran(p, args, outcome))), Err(OutputInvalid))
      case Some(o) =>
        var full := p.contract.dump(o);
        var truncated := codec.byteSize(full) > p.contract.maxBytes;
        var payload := if truncated then TruncationMarker(codec.byteSize(full)) else full;
        Effect(Some((failed.(output := Some(payload), outputHash := Some(codec.digest(payload)),
                             truncated := truncated),
                     Ran(p, args, outcome))),
               Ok(ToolResult(callId, o, false, truncated, p.trust)))
  }

  /** Serving row `source` again: a copy of its payload under the current time. */
  function ServeRow<O>(p: Policy<O>, runId: string, q: Query, rows: seq<Row>, source: nat): Effect<O>
    requires source < |rows| && rows[source].output.Some? && p.ttl.Some?
  {
    var src := rows[source];
    match p.contract.validateOut(src.output.value)
    case None => Effect(None, Err(CachedOutputInvalid))
    case Some(o) =>
      Effect(Some((Row(runId, p.name, p.version, q.role, src.inputHash, src.output, src.outputHash, p.trust, true,
                       false, None, q.now), Served(source, p.ttl.value))),
             Ok(ToolResult(|rows|, o, true, false, p.trust)))
  }

  /** What a call does, with the cache on or off. */
  function Respond<O>(codec: Codec, policies: map<string, Policy<O>>, impls: map<string, Impl>, runId: string,
                      rows: seq<Row>, q: Query, caching: bool): Effect<O>
    requires policies.Keys == impls.Keys
    requires forall name :: name in policies ==> policies[name].name == name
  {
    if q.tool !in policies then Effect(None, Err(ToolNotRegistered))
    else
      var p := policies[q.tool];
      if q.role !in p.allowedRoles then Effect(None, Err(ToolRoleDenied))
      else
        match p.contract.validateIn(q.args)
        case None => Effect(None, Err(InputInvalid))
        case Some(args) =>
          var hit := if caching && p.Cached()
                     then Latest(rows, p, InputHash(codec, args), q.now, p.ttl.value, q.tie, |rows|)
                     else None;
          match hit
          case Some(source) => ServeRow(p, runId, q, rows, source)
          case None => RunTool(codec, p, impls[q.tool], runId, q, args, |rows|)
  }

  // ---- The gateway object -------------------------------------------------

  /** The tool_calls table, shared by every gateway of the process. */
  class Table {
    var rows: seq<Row>

    constructor ()
      ensures rows == []
    { rows := []; }
  }

  class ToolGateway<!O> {
    const codec: Codec
    const conn: Table
    const runId: string
    var policies: map<string, Policy<O>>
    var impls: map<string, Impl>

    ghost predicate Valid()
      reads this
    {
      policies.Keys == impls.Keys && forall name :: name in policies ==> policies[name].name == name
    }

    constructor (codec: Codec, conn: Table, runId: string)
      ensures Valid() && policies == map[] && impls == map[] && this.codec == codec && this.conn == conn
              && this.runId == runId
    {
      this.codec, this.conn, this.runId := codec, conn, runId;
      policies, impls := map[], map[];
    }

    method Register(p: Policy<O>, impl: Impl)
      requires Valid()
      modifies this
      ensures Valid() && policies == old(policies)[p.name := p] && impls == old(impls)[p.name := impl]
    {
      policies := policies[p.name := p];
      impls := impls[p.name := impl];
    }

    /** The SQL query: newest eligible row first, equal timestamps in `tie` order. */
    method LookupCache(p: Policy<O>, hash: string, now: real, tie: nat -> int) returns (r: Option<nat>)
      requires p.ttl.Some?
      ensures r == Latest(conn.rows, p, hash, now, p.ttl.value, tie, |conn.rows|)
    {
      r := None;
      for i := 0 to |conn.rows|
        invariant r == Latest(conn.rows, p, hash, now, p.ttl.value, tie, i)
      {
        if Eligible(conn.rows[i], p, hash, now, p.ttl.value) {
          if r.None? || Beats(conn.rows, tie, i, r.value) { r := Some(i); }
        }
      }
    }

    method RecordCall(row: Row) returns (callId: nat)
      modifies conn
      ensures conn.rows == old(conn.rows) + [row] && callId == |old(conn.rows)|
    {
      callId := |conn.rows|;
      conn.rows := conn.rows + [row];
    }

    method Call(q: Query) returns (r: Result<ToolResult<O>, CallError>)
      requires Valid()
      modifies conn
      ensures var e := Respond(codec, policies, impls, runId, old(conn.rows), q, true);
              && r == e.result
              && conn.rows == old(conn.rows) + (if e.logged.Some? then [e.logged.value.0] else [])
    {
      if q.tool !in policies { return Err(ToolNotRegistered); }
      var p := policies[q.tool];
      if q.role !in p.allowedRoles { return Err(ToolRoleDenied); }
      var validated := p.contract.validateIn(q.args);
      if validated.None? { return Err(InputInvalid); }
      var args := validated.value;
      var hash := InputHash(codec, args);

      if p.Cached() {
        var hit := LookupCache(p, hash, q.now, q.tie);
        if hit.Some? {
          var src := conn.rows[hit.value];
          var cached := p.contract.validateOut(src.output.value);
          if cached.None? { return Err(CachedOutputInvalid); }
          var hitId := RecordCall(Row(runId, p.name, p.version, q.role, hash, src.output, src.outputHash, p.trust,
                                      true, false, None, q.now));
          return Ok(ToolResult(hitId, cached.value, true, false, p.trust));
        }
      }

      var blank := Row(runId, p.name, p.version, q.role, hash, None, None, p.trust, false, false, None, q.now);
      match impls[q.tool](args, q.tick) {
        case Threw(category) =>
          var _ := RecordCall(blank.(error := category));
          return Err(ImplFailed(category));
        case Returned(raw) =>
          var validatedOut := p.contract.validateOut(raw);
          if validatedOut.None? {
            var _ := RecordCall(blank.(error := Some(SchemaInvalid)));
            return Err(OutputInvalid);
          }
          var payload := p.contract.dump(validatedOut.value);
          var size := codec.byteSize(payload);
          var truncated := size > p.contract.maxBytes;
          if truncated { payload := TruncationMarker(size); }
          var callId := RecordCall(blank.(output := Some(payload), outputHash := Some(codec.digest(payload)),
                                          truncated := truncated));
          return Ok(ToolResult(callId, validatedOut.value, false, truncated, p.trust));
      }
    }
  }
}
