/** The shared-limiter router (llm/rate_limit.py, RateLimitedRouter) under concurrency.
    A get_llm call runs through three lock regions with unlocked code in between; the
    machine interleaves the regions of any number of calls with the provider requests
    made through the models already returned. */
module Router {
  import opened Prelude
  import opened Roles
  import opened TokenBucket

  type Provider = string

  /** Role bindings and the (rpm, burst) table with its default. */
  datatype Config = Config(bindings: map<AgentRole, Provider>,
                           perProvider: map<Provider, (int, int)>,
                           fallback: (int, int))
  {
    function Limits(p: Provider): (int, int) {
      if p in perProvider then perProvider[p] else fallback
    }
  }

  /** A callback bound to a model: the router's own, or one the caller passed in. */
  datatype Callback = RateLimit(limiter: nat) | Foreign(id: int)

  datatype Llm = Llm(provider: Provider, callbacks: seq<Callback>)

  /** A limiter object: its settings, its bucket and the grants it has made. */
  datatype Limiter = Limiter(provider: Provider, rpm: int, burst: int, bucket: Bucket, grants: seq<real>)

  /** Where one get_llm call stands between its lock regions. */
  datatype Pc = Enter | Missed | Holding(limiter: nat) | Built(model: Llm) | Returned(llm: Llm) | Raised

  /** `overridden`: the call has keyword arguments; `extra`: callbacks among them. */
  datatype Call = Call(role: AgentRole, overridden: bool, extra: seq<int>, pc: Pc)

  /** `objects` is every limiter ever constructed; `traffic` is every provider request
      sent, with the moment its token was granted. */
  datatype State = State(objects: seq<Limiter>, limiters: map<Provider, nat>, cache: map<AgentRole, Llm>,
                         calls: seq<Call>, traffic: seq<(Provider, real)>)

  datatype Action =
    | Begin(role: AgentRole, overridden: bool, extra: seq<int>)
    | CheckCache(k: nat)
    | LimiterFor(k: nat, now: real)
    | BuildModel(k: nat)
    | StoreAndReturn(k: nat)
    | Invoke(k: nat, now: real)

  const EMPTY := State([], map[], map[], [], [])

  function SetPc(s: State, k: nat, pc: Pc): State
    requires k < |s.calls|
  {
    s.(calls := s.calls[k := s.calls[k].(pc := pc)])
  }

  /** First region, after the role test: read the cache unless the call is overridden. */
  function CheckCacheStep(cfg: Config, s: State, k: nat): State
    requires k < |s.calls|
  {
    var c := s.calls[k];
    if c.role !in cfg.bindings then SetPc(s, k, Raised)
    else if !c.overridden && c.role in s.cache then SetPc(s, k, Returned(s.cache[c.role]))
    else SetPc(s, k, Missed)
  }

  /** Second region: look the provider's limiter up, constructing it on first use. */
  function LimiterForStep(cfg: Config, s: State, k: nat, now: real): State
    requires k < |s.calls| && s.calls[k].role in cfg.bindings
  {
    var p := cfg.bindings[s.calls[k].role];
    if p in s.limiters then SetPc(s, k, Holding(s.limiters[p]))
    else
      var (rpm, burst) := cfg.Limits(p);
      if rpm <= 0 || burst <= 0 then SetPc(s, k, Raised)
      else
        var made := s.(objects := s.objects + [Limiter(p, rpm, burst, Bucket(burst as real, now), [])],
                       limiters := s.limiters[p := |s.objects|]);
        SetPc(made, k, Holding(|s.objects|))
  }

  /** Unlocked: the model gets the caller's callbacks and then the limiter's. */
  function BuildStep(cfg: Config, s: State, k: nat): State
    requires k < |s.calls| && s.calls[k].role in cfg.bindings && s.calls[k].pc.Holding?
  {
    var c := s.calls[k];
    SetPc(s, k, Built(Llm(cfg.bindings[c.role],
                          seq(|c.extra|, i requires 0 <= i < |c.extra| => Foreign(c.extra[i]))
                              + [RateLimit(c.pc.limiter)])))
  }

  /** Third region: a plain call caches its model, replacing any other thread's. */
  function StoreStep(s: State, k: nat): State
    requires k < |s.calls| && s.calls[k].pc.Built?
  {
    var c := s.calls[k];
    var stored := if c.overridden then s else s.(cache := s.cache[c.role := c.pc.model]);
    SetPc(stored, k, Returned(c.pc.model))
  }

  /** A request through a returned model takes a token from the limiter it carries. */
  function InvokeStep(s: State, llm: Llm, now: real): State {
    if llm.callbacks == [] || !llm.callbacks[|llm.callbacks| - 1].RateLimit? then s
    else
      var id := llm.callbacks[|llm.callbacks| - 1].limiter;
      if id >= |s.objects| then s
      else
        var l := s.objects[id];
        if l.rpm <= 0 || !Ready(l.bucket, now, Rate(l.rpm), l.burst) then s
        else
          var l' := l.(bucket := Grant(l.bucket, now, Rate(l.rpm), l.burst), grants := l.grants + [now]);
          s.(objects := s.objects[id := l'], traffic := s.traffic + [(llm.provider, now)])
  }

  /** One atomic step; an action that is not enabled changes nothing. */
  function Step(cfg: Config, s: State, a: Action): State {
    match a
    case Begin(role, overridden, extra) =>
      s.(calls := s.calls + [Call(role, overridden || extra != [], extra, Enter)])
    case CheckCache(k) =>
      if k < |s.calls| && s.calls[k].pc.Enter? then CheckCacheStep(cfg, s, k) else s
    case LimiterFor(k, now) =>
      if k < |s.calls| && s.calls[k].pc.Missed? && s.calls[k].role in cfg.bindings
      then LimiterForStep(cfg, s, k, now) else s
    case BuildModel(k) =>
      if k < |s.calls| && s.calls[k].pc.Holding? && s.calls[k].role in cfg.bindings
      then BuildStep(cfg, s, k) else s
    case StoreAndReturn(k) =>
      if k < |s.calls| && s.calls[k].pc.Built? then StoreStep(s, k) else s
    case Invoke(k, now) =>
      if k < |s.calls| && s.calls[k].pc.Returned? then InvokeStep(s, s.calls[k].pc.llm, now) else s
  }

  function Run(cfg: Config, s: State, actions: seq<Action>): State
    decreases |actions|
  {
    if actions == [] then s else Run(cfg, Step(cfg, s, actions[0]), actions[1..])
  }

  /** The grant times of the requests sent to one provider. */
  function Requests(traffic: seq<(Provider, real)>, p: Provider): seq<real>
    decreases |traffic|
  {
    if traffic == [] then []
    else
      var (q, t) := traffic[|traffic| - 1];
      Requests(traffic[..|traffic| - 1], p) + if q == p then [t] else []
  }

  // ---- Invariant ----------------------------------------------------------

  /** The model belongs to the provider and its last callback is that provider's one
      registered limiter; the callbacks before it are the caller's. */
  ghost predicate Throttled(limiters: map<Provider, nat>, p: Provider, llm: Llm) {
    && llm.provider == p && p in limiters && llm.callbacks != []
    && llm.callbacks[|llm.callbacks| - 1] == RateLimit(limiters[p])
    && forall i :: 0 <= i < |llm.callbacks| - 1 ==> llm.callbacks[i].Foreign?
  }

  ghost predicate CallOk(cfg: Config, limiters: map<Provider, nat>, c: Call) {
    match c.pc
    case Enter => true
    case Raised => true
    case Missed => c.role in cfg.bindings
    case Holding(l) => c.role in cfg.bindings && cfg.bindings[c.role] in limiters && l == limiters[cfg.bindings[c.role]]
    case Built(llm) => c.role in cfg.bindings && Throttled(limiters, cfg.bindings[c.role], llm)
    case Returned(llm) => c.role in cfg.bindings && Throttled(limiters, cfg.bindings[c.role], llm)
  }

  ghost predicate CacheOk(cfg: Config, s: State) {
    forall r :: r in s.cache ==> r in cfg.bindings && Throttled(s.limiters, cfg.bindings[r], s.cache[r])
  }

  ghost predicate CallsOk(cfg: Config, s: State) {
    forall k :: 0 <= k < |s.calls| ==> CallOk(cfg, s.limiters, s.calls[k])
  }

  /** The registry and the constructed limiters are in one-to-one correspondence. */
  ghost predicate OneEach(s: State) {
    && (forall p :: p in s.limiters ==> s.limiters[p] < |s.objects| && s.objects[s.limiters[p]].provider == p)
    && (forall i :: 0 <= i < |s.objects| ==>
        s.objects[i].provider in s.limiters && s.limiters[s.objects[i].provider] == i)
  }

  ghost predicate LimiterOk(cfg: Config, traffic: seq<(Provider, real)>, l: Limiter) {
    && (l.rpm, l.burst) == cfg.Limits(l.provider) && l.rpm > 0 && l.burst > 0
    && InRange(l.bucket, l.burst)
    && Ledger(l.grants, l.bucket, Rate(l.rpm), l.burst)
    && WindowBound(l.grants, Rate(l.rpm), l.burst)
    && l.grants == Requests(traffic, l.provider)
  }

  ghost predicate LimitersOk(cfg: Config, s: State) {
    && (forall i :: 0 <= i < |s.objects| ==> LimiterOk(cfg, s.traffic, s.objects[i]))
    && (forall p :: p !in s.limiters ==> Requests(s.traffic, p) == [])
  }

  ghost predicate Inv(cfg: Config, s: State) {
    OneEach(s) && LimitersOk(cfg, s) && CacheOk(cfg, s) && CallsOk(cfg, s)
  }

  /** The registry only grows: an entry, once made, is never replaced. */
  ghost predicate Extends(s: State, s': State) {
    forall p :: p in s.limiters ==> p in s'.limiters && s'.limiters[p] == s.limiters[p]
  }

  lemma ModelsSurvive(cfg: Config, s: State, s': State)
    requires CacheOk(cfg, s) && CallsOk(cfg, s) && Extends(s, s') && s'.cache == s.cache
    ensures CacheOk(cfg, s')
    ensures forall k :: 0 <= k < |s.calls| ==> CallOk(cfg, s'.limiters, s.calls[k])
  {
    forall k | 0 <= k < |s.calls| ensures CallOk(cfg, s'.limiters, s.calls[k]) {
      assert CallOk(cfg, s.limiters, s.calls[k]);
    }
  }

  lemma ConstructKeepsLimiters(cfg: Config, s: State, s': State, p: Provider, now: real)
    requires OneEach(s) && LimitersOk(cfg, s) && p !in s.limiters
    requires var (rpm, burst) := cfg.Limits(p);
             rpm > 0 && burst > 0
             && s'.objects == s.objects + [Limiter(p, rpm, burst, Bucket(burst as real, now), [])]
    requires s'.limiters == s.limiters[p := |s.objects|] && s'.traffic == s.traffic
    ensures OneEach(s') && LimitersOk(cfg, s')
  {
    forall i | 0 <= i < |s'.objects| ensures LimiterOk(cfg, s'.traffic, s'.objects[i]) {
      if i < |s.objects| { assert LimiterOk(cfg, s.traffic, s.objects[i]); }
    }
  }

  lemma LimiterForKeeps(cfg: Config, s: State, k: nat, now: real)
    requires Inv(cfg, s) && k < |s.calls| && s.calls[k].role in cfg.bindings
    ensures Inv(cfg, LimiterForStep(cfg, s, k, now)) && Extends(s, LimiterForStep(cfg, s, k, now))
  {
    hide LimiterOk, Requests, CacheOk;
    var p := cfg.bindings[s.calls[k].role];
    var s' := LimiterForStep(cfg, s, k, now);
    if s'.objects != s.objects { ConstructKeepsLimiters(cfg, s, s', p, now); }
    ModelsSurvive(cfg, s, s');
  }

  lemma RequestsGrow(traffic: seq<(Provider, real)>, q: Provider, p: Provider, now: real)
    ensures Requests(traffic + [(q, now)], p) == Requests(traffic, p) + if q == p then [now] else []
  {
    assert (traffic + [(q, now)])[..|traffic|] == traffic;
  }

  lemma GrantKeepsLimiter(cfg: Config, traffic: seq<(Provider, real)>, l: Limiter, now: real)
    requires LimiterOk(cfg, traffic, l) && Ready(l.bucket, now, Rate(l.rpm), l.burst)
    ensures LimiterOk(cfg, traffic + [(l.provider, now)],
                      l.(bucket := Grant(l.bucket, now, Rate(l.rpm), l.burst), grants := l.grants + [now]))
  {
    hide Ledger, WindowBound, Grant, Ready, Requests;
    RequestsGrow(traffic, l.provider, l.provider, now);
    GrantKeepsBound(l.grants, l.bucket, now, Rate(l.rpm), l.burst);
  }

  lemma OtherLimiterUnmoved(cfg: Config, traffic: seq<(Provider, real)>, l: Limiter, p: Provider, now: real)
    requires LimiterOk(cfg, traffic, l) && p != l.provider
    ensures LimiterOk(cfg, traffic + [(p, now)], l)
  {
    hide Ledger, WindowBound, Requests;
    RequestsGrow(traffic, p, l.provider, now);
  }

  lemma InvokeKeeps(cfg: Config, s: State, k: nat, now: real)
    requires Inv(cfg, s) && k < |s.calls| && s.calls[k].pc.Returned?
    ensures Inv(cfg, InvokeStep(s, s.calls[k].pc.llm, now)) && Extends(s, InvokeStep(s, s.calls[k].pc.llm, now))
  {
    hide Requests, Ready, Grant, CacheOk, Ledger, WindowBound;
    var llm := s.calls[k].pc.llm;
    assert CallOk(cfg, s.limiters, s.calls[k]);
    var id := s.limiters[llm.provider];
    var l := s.objects[id];
    assert LimiterOk(cfg, s.traffic, l);
    var s' := InvokeStep(s, llm, now);
    if s' != s {
      GrantKeepsLimiter(cfg, s.traffic, l, now);
      forall i | 0 <= i < |s'.objects| ensures LimiterOk(cfg, s'.traffic, s'.objects[i]) {
        if i != id { OtherLimiterUnmoved(cfg, s.traffic, s.objects[i], llm.provider, now); }
      }
      forall p | p !in s'.limiters ensures Requests(s'.traffic, p) == [] {
        RequestsGrow(s.traffic, llm.provider, p, now);
      }
      ModelsSurvive(cfg, s, s');
    }
  }

  lemma SetPcKeeps(cfg: Config, s: State, k: nat, pc: Pc)
    requires Inv(cfg, s) && k < |s.calls| && CallOk(cfg, s.limiters, s.calls[k].(pc := pc))
    ensures Inv(cfg, SetPc(s, k, pc)) && Extends(s, SetPc(s, k, pc))
  {
  }

  lemma StoreKeeps(cfg: Config, s: State, k: nat)
    requires Inv(cfg, s) && k < |s.calls| && s.calls[k].pc.Built?
    ensures Inv(cfg, StoreStep(s, k)) && Extends(s, StoreStep(s, k))
  {
    var c := s.calls[k];
    assert CallOk(cfg, s.limiters, c);
    var stored := if c.overridden then s else s.(cache := s.cache[c.role := c.pc.model]);
    assert Inv(cfg, stored);
    SetPcKeeps(cfg, stored, k, Returned(c.pc.model));
  }

  lemma BeginKeeps(cfg: Config, s: State, c: Call)
    requires Inv(cfg, s) && CallOk(cfg, s.limiters, c)
    ensures Inv(cfg, s.(calls := s.calls + [c]))
  {
  }

  lemma CallIsOk(cfg: Config, s: State, k: nat)
    requires Inv(cfg, s) && k < |s.calls|
    ensures CallOk(cfg, s.limiters, s.calls[k])
  {
  }

  lemma CachedIsOk(cfg: Config, s: State, r: AgentRole)
    requires Inv(cfg, s)
    ensures r in s.cache ==> r in cfg.bindings && Throttled(s.limiters, cfg.bindings[r], s.cache[r])
  {
  }

  lemma StepKeeps(cfg: Config, s: State, a: Action)
    requires Inv(cfg, s)
    ensures Inv(cfg, Step(cfg, s, a)) && Extends(s, Step(cfg, s, a))
  {
    hide LimitersOk, OneEach, CacheOk, CallsOk;
    var s' := Step(cfg, s, a);
    if s' != s {
      match a
      case Begin(role, overridden, extra) => BeginKeeps(cfg, s, Call(role, overridden || extra != [], extra, Enter));
      case LimiterFor(k, now) => LimiterForKeeps(cfg, s, k, now);
      case Invoke(k, now) => InvokeKeeps(cfg, s, k, now);
      case CheckCache(k) =>
        CachedIsOk(cfg, s, s.calls[k].role);
        SetPcKeeps(cfg, s, k, s'.calls[k].pc);
      case BuildModel(k) =>
        CallIsOk(cfg, s, k);
        SetPcKeeps(cfg, s, k, s'.calls[k].pc);
      case StoreAndReturn(k) => StoreKeeps(cfg, s, k);
    }
  }

  lemma {:induction false} RunKeeps(cfg: Config, s: State, actions: seq<Action>)
    requires Inv(cfg, s)
    ensures Inv(cfg, Run(cfg, s, actions)) && Extends(s, Run(cfg, s, actions))
    decreases |actions|
  {
    if actions != [] {
      StepKeeps(cfg, s, actions[0]);
      RunKeeps(cfg, Step(cfg, s, actions[0]), actions[1..]);
    }
  }

  // ---- Main results -------------------------------------------------------

  /** Whatever the interleaving, no provider ever gets a second limiter. */
  lemma AtMostOneLimiterPerProvider(cfg: Config, actions: seq<Action>)
    ensures var s := Run(cfg, EMPTY, actions);
            forall i, j :: 0 <= i < j < |s.objects| ==> s.objects[i].provider != s.objects[j].provider
  {
    RunKeeps(cfg, EMPTY, actions);
  }

  /** Every model ever returned, cached or not, for any role, carries its provider's
      limiter as last callback, and keeps doing so however the run goes on. */
  lemma ReturnedModelsAreThrottled(cfg: Config, before: seq<Action>, after: seq<Action>, k: nat)
    requires var s := Run(cfg, EMPTY, before); k < |s.calls| && s.calls[k].pc.Returned?
    ensures var s := Run(cfg, EMPTY, before);
            var llm := s.calls[k].pc.llm;
            s.calls[k].role in cfg.bindings
            && Throttled(Run(cfg, s, after).limiters, cfg.bindings[s.calls[k].role], llm)
  {
    RunKeeps(cfg, EMPTY, before);
    var s := Run(cfg, EMPTY, before);
    assert CallOk(cfg, s.limiters, s.calls[k]);
    RunKeeps(cfg, s, after);
  }

  /** So the provider's total traffic, through however many roles, threads and model
      objects, obeys one token bucket with the provider's own settings, or the default
      ones if it has none. */
  lemma ProviderTrafficWithinBound(cfg: Config, actions: seq<Action>, p: Provider)
    ensures var (rpm, burst) := if p in cfg.perProvider then cfg.perProvider[p] else cfg.fallback;
            WithinPerMinute(Requests(Run(cfg, EMPTY, actions).traffic, p), rpm, burst)
  {
    RunKeeps(cfg, EMPTY, actions);
    var s := Run(cfg, EMPTY, actions);
    var (rpm, burst) := cfg.Limits(p);
    if p in s.limiters { assert LimiterOk(cfg, s.traffic, s.objects[s.limiters[p]]); }
    BoundPerMinute(Requests(s.traffic, p), rpm, burst);
  }

  /** Requests are sent: one through a returned model goes out at any moment its provider's
      bucket has a token, takes that token and no other, and otherwise waits. */
  lemma RequestIsSentExactlyWhenReady(cfg: Config, actions: seq<Action>, k: nat, now: real)
    requires var s := Run(cfg, EMPTY, actions); k < |s.calls| && s.calls[k].pc.Returned?
    ensures var s := Run(cfg, EMPTY, actions);
            var s', llm := Step(cfg, s, Invoke(k, now)), s.calls[k].pc.llm;
            && llm.provider in s.limiters && s.limiters[llm.provider] < |s.objects|
            && var l := s.objects[s.limiters[llm.provider]];
               && l.rpm > 0
               && if Ready(l.bucket, now, Rate(l.rpm), l.burst) then
                    && s'.traffic == s.traffic + [(llm.provider, now)]
                    && |s'.objects| == |s.objects|
                    && s'.objects[s.limiters[llm.provider]].bucket == Grant(l.bucket, now, Rate(l.rpm), l.burst)
                    && (forall i :: 0 <= i < |s.objects| && i != s.limiters[llm.provider] ==>
                        s'.objects[i] == s.objects[i])
                  else s' == s
  {
    hide Ready, Grant, Rate, Run;
    RunKeeps(cfg, EMPTY, actions);
    var s := Run(cfg, EMPTY, actions);
    assert CallOk(cfg, s.limiters, s.calls[k]);
    assert LimiterOk(cfg, s.traffic, s.objects[s.limiters[s.calls[k].pc.llm.provider]]);
  }

  // ---- The router object --------------------------------------------------

  /** A whole get_llm call made while no other thread is inside the router. */
  function GetLlmAlone(cfg: Config, s: State, role: AgentRole, overridden: bool, extra: seq<int>, now: real): (r: State)
    ensures |r.calls| == |s.calls| + 1
  {
    var k := |s.calls|;
    var s1 := Step(cfg, s, Begin(role, overridden, extra));
    var s2 := Step(cfg, s1, CheckCache(k));
    var s3 := Step(cfg, s2, LimiterFor(k, now));
    var s4 := Step(cfg, s3, BuildModel(k));
    Step(cfg, s4, StoreAndReturn(k))
  }

  /** The ways through it: an unbound role, a cached model, limits that no limiter can
      have, and a model built on the provider's limiter. */
  lemma AloneUnbound(cfg: Config, s: State, role: AgentRole, overridden: bool, extra: seq<int>, now: real)
    requires s.calls == [] && role !in cfg.bindings
    ensures var r := GetLlmAlone(cfg, s, role, overridden, extra, now);
            r.objects == s.objects && r.limiters == s.limiters && r.cache == s.cache && r.calls[0].pc == Raised
  {
  }

  lemma AloneCached(cfg: Config, s: State, role: AgentRole, now: real)
    requires s.calls == [] && role in cfg.bindings && role in s.cache
    ensures var r := GetLlmAlone(cfg, s, role, false, [], now);
            && r.objects == s.objects && r.limiters == s.limiters && r.cache == s.cache
            && r.calls[0].pc == Returned(s.cache[role])
  {
  }

  /** The registry after the provider's limiter has been looked up, and its number; None if
      the limits are refused. */
  function LookUp(cfg: Config, s: State, p: Provider, now: real): Option<(State, nat)> {
    var (rpm, burst) := cfg.Limits(p);
    if p in s.limiters then Some((s, s.limiters[p]))
    else if rpm <= 0 || burst <= 0 then None
    else Some((s.(objects := s.objects + [Limiter(p, rpm, burst, Bucket(burst as real, now), [])],
                  limiters := s.limiters[p := |s.objects|]), |s.objects|))
  }

  lemma AloneBuilt(cfg: Config, s: State, role: AgentRole, overridden: bool, extra: seq<int>, now: real)
    requires s.calls == [] && role in cfg.bindings && (overridden || extra != [] || role !in s.cache)
    ensures var r, p := GetLlmAlone(cfg, s, role, overridden, extra, now), cfg.bindings[role];
            match LookUp(cfg, s, p, now)
            case None =>
              && r.objects == s.objects && r.limiters == s.limiters && r.cache == s.cache
              && r.calls[0].pc == Raised
            case Some((made, id)) =>
              && r.objects == made.objects && r.limiters == made.limiters
              && r.calls[0].pc == Returned(ModelFor(p, extra, id))
              && r.cache == if overridden || extra != [] then s.cache else s.cache[role := ModelFor(p, extra, id)]
  {
    hide Step, LookUp, ModelFor;
    var c := Call(role, overridden || extra != [], extra, Missed);
    var s2 := Misses(cfg, s, role, overridden, extra);
    LimiterTaken(cfg, s2, c, now);
    LookUpIgnoresCalls(cfg, s, s2, cfg.bindings[role], now);
    var s3 := Step(cfg, s2, LimiterFor(0, now));
    if LookUp(cfg, s2, cfg.bindings[role], now).Some? {
      BuiltAndStored(cfg, s3, s3.calls[0]);
    } else {
      RaisedStays(cfg, s3);
    }
  }

  function ModelFor(p: Provider, extra: seq<int>, id: nat): Llm {
    Llm(p, seq(|extra|, i requires 0 <= i < |extra| => Foreign(extra[i])) + [RateLimit(id)])
  }

  lemma Misses(cfg: Config, s: State, role: AgentRole, overridden: bool, extra: seq<int>) returns (s2: State)
    requires s.calls == [] && role in cfg.bindings && (overridden || extra != [] || role !in s.cache)
    ensures s2 == Step(cfg, Step(cfg, s, Begin(role, overridden, extra)), CheckCache(0))
    ensures s2 == s.(calls := [Call(role, overridden || extra != [], extra, Missed)])
  {
    s2 := Step(cfg, Step(cfg, s, Begin(role, overridden, extra)), CheckCache(0));
  }

  lemma LimiterTaken(cfg: Config, s: State, c: Call, now: real)
    requires s.calls == [c] && c.pc.Missed? && c.role in cfg.bindings
    ensures Step(cfg, s, LimiterFor(0, now)) ==
            match LookUp(cfg, s, cfg.bindings[c.role], now)
            case None => s.(calls := [c.(pc := Raised)])
            case Some((made, id)) => made.(calls := [c.(pc := Holding(id))])
  {
  }

  lemma LookUpIgnoresCalls(cfg: Config, s: State, t: State, p: Provider, now: real)
    requires t == s.(calls := t.calls)
    ensures match LookUp(cfg, s, p, now)
            case None => LookUp(cfg, t, p, now).None?
            case Some((made, id)) =>
              LookUp(cfg, t, p, now) == Some((made.(calls := t.calls), id)) && made.cache == s.cache
  {
  }

  lemma BuiltAndStored(cfg: Config, s: State, c: Call)
    requires s.calls == [c] && c.pc.Holding? && c.role in cfg.bindings
    ensures var llm := ModelFor(cfg.bindings[c.role], c.extra, c.pc.limiter);
            Step(cfg, Step(cfg, s, BuildModel(0)), StoreAndReturn(0))
            == s.(calls := [c.(pc := Returned(llm))], cache := if c.overridden then s.cache else s.cache[c.role := llm])
  {
    var built := Step(cfg, s, BuildModel(0));
    assert built.calls[0].pc.model.callbacks == ModelFor(cfg.bindings[c.role], c.extra, c.pc.limiter).callbacks;
    assert built == s.(calls := [c.(pc := Built(ModelFor(cfg.bindings[c.role], c.extra, c.pc.limiter)))]);
  }

  lemma RaisedStays(cfg: Config, s: State)
    requires |s.calls| == 1 && s.calls[0].pc.Raised?
    ensures Step(cfg, s, BuildModel(0)) == s && Step(cfg, s, StoreAndReturn(0)) == s
  {
  }

  class RateLimitedRouter {
    const cfg: Config
    var objects: seq<Limiter>
    var limiters: map<Provider, nat>
    var cache: map<AgentRole, Llm>

    ghost function View(): State
      reads this
    { State(objects, limiters, cache, [], []) }

    constructor (cfg: Config)
      ensures this.cfg == cfg && View() == EMPTY
    {
      this.cfg := cfg;
      objects, limiters, cache := [], map[], map[];
    }

    method LimiterForProvider(p: Provider, now: real) returns (r: Option<nat>)
      modifies this
      ensures cache == old(cache)
      ensures p in old(limiters) ==> r == Some(old(limiters)[p]) && View() == old(View())
      ensures p !in old(limiters) ==>
        var (rpm, burst) := cfg.Limits(p);
        if rpm <= 0 || burst <= 0 then r.None? && View() == old(View())
        else r == Some(|old(objects)|) && limiters == old(limiters)[p := |old(objects)|]
             && objects == old(objects) + [Limiter(p, rpm, burst, Bucket(burst as real, now), [])]
    {
      if p !in limiters {
        var (rpm, burst) := cfg.Limits(p);
        if rpm <= 0 || burst <= 0 { return None; }
        limiters := limiters[p := |objects|];
        objects := objects + [Limiter(p, rpm, burst, Bucket(burst as real, now), [])];
      }
      r := Some(limiters[p]);
    }

    /** Run without interference, the method is one path of the machine; None stands for
        the KeyError of an unbound role and the ValueError of a bad limit. */
    method GetLlm(role: AgentRole, overridden: bool, extra: seq<int>, now: real) returns (r: Option<Llm>)
      modifies this
      ensures var s := GetLlmAlone(cfg, old(View()), role, overridden, extra, now);
              && objects == s.objects && limiters == s.limiters && cache == s.cache
              && s.calls[0].pc == (if r.Some? then Returned(r.value) else Raised)
    {
      hide GetLlmAlone;
      var isOverridden := overridden || extra != [];
      ghost var s := View();
      if role !in cfg.bindings {
        AloneUnbound(cfg, s, role, overridden, extra, now);
        return None;
      }
      if !isOverridden && role in cache {
        AloneCached(cfg, s, role, now);
        return Some(cache[role]);
      }
      AloneBuilt(cfg, s, role, overridden, extra, now);
      var provider := cfg.bindings[role];
      var limiter := LimiterForProvider(provider, now);
      if limiter.None? { return None; }
      var callbacks := seq(|extra|, i requires 0 <= i < |extra| => Foreign(extra[i]));
      var llm := Llm(provider, callbacks + [RateLimit(limiter.value)]);
      if !isOverridden { cache := cache[role := llm]; }
      r := Some(llm);
    }
  }
}
