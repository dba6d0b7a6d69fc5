/** The tool log Researcher-Wide leaves behind is one run of the tool gateway, so what
    holds of gateway runs holds of every conversation (agents/researcher_wide.py:302-313,
    runtime/tool_gateway.py). */
module WideAudit {
  import opened Prelude
  import opened ToolGateway
  import GatewayRuns
  import Freshness
  import opened Llm
  import opened React
  import opened Wide

  type SearchWorld = GatewayRuns.World<SearchOutput>
  type SearchOp = GatewayRuns.Op<SearchOutput>

  /** What is done for each dispatched call before it is made. */
  function Opening(kit: Kit, runId: string): seq<SearchOp> {
    [GatewayRuns.Open(runId),
     GatewayRuns.Register(WidePolicy(kit, ARXIV_SEARCH), kit.impl(ARXIV_SEARCH)),
     GatewayRuns.Register(WidePolicy(kit, S2_LOOKUP), kit.impl(S2_LOOKUP)),
     GatewayRuns.Register(WidePolicy(kit, WEB_SEARCH), kit.impl(WEB_SEARCH)),
     GatewayRuns.Register(WidePolicy(kit, SUBMIT), kit.impl(SUBMIT))]
  }

  /** The gateway operations behind a list of answers. */
  function OpsOf(kit: Kit, runId: string, answers: seq<Answer>): seq<SearchOp> {
    if answers == [] then []
    else
      var a := answers[|answers| - 1];
      OpsOf(kit, runId, answers[..|answers| - 1])
      + if a.Dispatched? && !Clashes(a.query.args) then Opening(kit, runId) + [GatewayRuns.Ask(a.query)] else []
  }

  lemma {:induction false} AfterConcat(codec: Codec, w: SearchWorld, a: seq<SearchOp>, b: seq<SearchOp>)
    requires GatewayRuns.WellFormed(w)
    ensures GatewayRuns.After(codec, w, a + b, true)
            == GatewayRuns.After(codec, GatewayRuns.After(codec, w, a, true), b, true)
    decreases |a|
  {
    hide GatewayRuns.Next;
    if a == [] {
      assert a + b == b;
    } else {
      assert (a + b)[1..] == a[1..] + b;
      AfterConcat(codec, GatewayRuns.Next(codec, w, a[0], true), a[1..], b);
    }
  }

  lemma AfterOpening(kit: Kit, runId: string, w: SearchWorld)
    requires GatewayRuns.WellFormed(w)
    ensures GatewayRuns.After(kit.codec, w, Opening(kit, runId), true)
         == GatewayRuns.World(WidePolicies(kit), WideImpls(kit), runId, w.rows, w.causes)
  {
    hide WidePolicy, Respond, ARXIV_SEARCH, S2_LOOKUP, WEB_SEARCH, SUBMIT;
    PolicyBearsName(kit, ARXIV_SEARCH);
    PolicyBearsName(kit, S2_LOOKUP);
    PolicyBearsName(kit, WEB_SEARCH);
    PolicyBearsName(kit, SUBMIT);
    var ops := Opening(kit, runId);
    Steps5(kit.codec, w, ops);
  }

  lemma Steps5(codec: Codec, w: SearchWorld, ops: seq<SearchOp>)
    requires GatewayRuns.WellFormed(w) && |ops| == 5
    ensures var w1 := GatewayRuns.Next(codec, w, ops[0], true);
            var w2 := GatewayRuns.Next(codec, w1, ops[1], true);
            var w3 := GatewayRuns.Next(codec, w2, ops[2], true);
            var w4 := GatewayRuns.Next(codec, w3, ops[3], true);
            GatewayRuns.After(codec, w, ops, true) == GatewayRuns.Next(codec, w4, ops[4], true)
  {
    hide GatewayRuns.Next;
    var w1 := GatewayRuns.Next(codec, w, ops[0], true);
    var w2 := GatewayRuns.Next(codec, w1, ops[1], true);
    var w3 := GatewayRuns.Next(codec, w2, ops[2], true);
    var w4 := GatewayRuns.Next(codec, w3, ops[3], true);
    assert ops[1..][1..] == ops[2..] && ops[2..][1..] == ops[3..] && ops[3..][1..] == ops[4..] && ops[4..][1..] == [];
    assert GatewayRuns.After(codec, w, ops, true) == GatewayRuns.After(codec, w1, ops[1..], true);
    assert GatewayRuns.After(codec, w1, ops[1..], true) == GatewayRuns.After(codec, w2, ops[2..], true);
    assert GatewayRuns.After(codec, w2, ops[2..], true) == GatewayRuns.After(codec, w3, ops[3..], true);
    assert GatewayRuns.After(codec, w3, ops[3..], true) == GatewayRuns.After(codec, w4, ops[4..], true);
    var w5 := GatewayRuns.Next(codec, w4, ops[4], true);
    assert GatewayRuns.After(codec, w4, ops[4..], true) == GatewayRuns.After(codec, w5, ops[4..][1..], true);
    assert GatewayRuns.After(codec, w5, [], true) == w5;
  }

  /** Answering leaves the log that the operations leave. */
  lemma {:induction false} AnswersAreAGatewayRun(kit: Kit, runId: string, w: SearchWorld, scene: Scene,
                                                 answers: seq<Answer>)
    requires GatewayRuns.WellFormed(w) && w.rows == scene.rows
    ensures GatewayRuns.After(kit.codec, w, OpsOf(kit, runId, answers), true).rows
         == SceneAfter(kit, runId, scene, answers).rows
  {
    hide Opening, WidePolicies, WideImpls, Respond, Clashes;
    if answers != [] {
      var n := |answers| - 1;
      var front := OpsOf(kit, runId, answers[..n]);
      AnswersAreAGatewayRun(kit, runId, w, scene, answers[..n]);
      if answers[n].Dispatched? && !Clashes(answers[n].query.args) {
        var ask := [GatewayRuns.Ask(answers[n].query)];
        var before := GatewayRuns.After(kit.codec, w, front, true);
        AfterConcat(kit.codec, w, front, Opening(kit, runId) + ask);
        AfterConcat(kit.codec, before, Opening(kit, runId), ask);
        AfterOpening(kit, runId, before);
        AskedOnce(kit, runId, GatewayRuns.After(kit.codec, before, Opening(kit, runId), true),
                  SceneAfter(kit, runId, scene, answers[..n]), answers[n].query);
      } else {
        assert front + [] == front;
      }
    }
  }

  lemma AskedOnce(kit: Kit, runId: string, w: SearchWorld, scene: Scene, q: Query)
    requires w.policies == WidePolicies(kit) && w.impls == WideImpls(kit) && w.runId == runId
    requires GatewayRuns.WellFormed(w) && w.rows == scene.rows && !Clashes(q.args)
    ensures GatewayRuns.After(kit.codec, w, [GatewayRuns.Ask(q)], true).rows
         == SceneAfterQuery(kit, runId, scene, q).rows
  {
    hide Respond, WidePolicies, WideImpls;
    var ops: seq<SearchOp> := [GatewayRuns.Ask(q)];
    assert ops[1..] == [];
  }

  // ---- Turns and sections -------------------------------------------------

  function AnswersIn(turns: seq<Turn>): seq<Answer> {
    if turns == [] then [] else AnswersIn(turns[..|turns| - 1]) + turns[|turns| - 1].answers
  }

  function AnswersOf(steps: seq<Step>): seq<Answer> {
    if steps == [] then [] else AnswersOf(steps[..|steps| - 1]) + AnswersIn(steps[|steps| - 1].turns)
  }

  lemma {:induction false} SceneAfterBoth(kit: Kit, runId: string, scene: Scene, a: seq<Answer>, b: seq<Answer>)
    ensures SceneAfter(kit, runId, scene, a + b) == SceneAfter(kit, runId, SceneAfter(kit, runId, scene, a), b)
    decreases |b|
  {
    hide SceneAfterQuery;
    if b == [] {
      assert a + b == a;
    } else {
      var n := |b| - 1;
      assert (a + b)[..|a + b| - 1] == a + b[..n];
      SceneAfterBoth(kit, runId, scene, a, b[..n]);
    }
  }

  lemma {:induction false} TurnsAreAnswers(kit: Kit, runId: string, scene: Scene, turns: seq<Turn>)
    ensures SceneAfterTurns(kit, runId, scene, turns) == SceneAfter(kit, runId, scene, AnswersIn(turns))
  {
    hide SceneAfterQuery;
    if turns != [] {
      var n := |turns| - 1;
      TurnsAreAnswers(kit, runId, scene, turns[..n]);
      SceneAfterBoth(kit, runId, scene, AnswersIn(turns[..n]), turns[n].answers);
    }
  }

  lemma {:induction false} StepsAreAnswers(kit: Kit, runId: string, scene: Scene, steps: seq<Step>)
    ensures SceneAfterSteps(kit, runId, scene, steps) == SceneAfter(kit, runId, scene, AnswersOf(steps))
  {
    hide SceneAfterQuery, SceneAfterTurns, AnswersIn;
    if steps != [] {
      var n := |steps| - 1;
      StepsAreAnswers(kit, runId, scene, steps[..n]);
      TurnsAreAnswers(kit, runId, SceneAfter(kit, runId, scene, AnswersOf(steps[..n])), steps[n].turns);
      SceneAfterBoth(kit, runId, scene, AnswersOf(steps[..n]), AnswersIn(steps[n].turns));
    }
  }

  /** The log after the node, or after the conversation an exception cut short, is the
      log of one run of gateway operations; so each of its rows is explained, and each hit
      has a genuine origin. */
  lemma WideIsAGatewayRun(kit: Kit, runId: string, w: SearchWorld, scene: Scene, steps: seq<Step>, cut: seq<Turn>)
    requires GatewayRuns.WellFormed(w) && GatewayRuns.AllExplained(kit.codec, w) && w.rows == scene.rows
    ensures var after := GatewayRuns.After(kit.codec, w, OpsOf(kit, runId, AnswersOf(steps) + AnswersIn(cut)), true);
            && after.rows == SceneAfterTurns(kit, runId, SceneAfterSteps(kit, runId, scene, steps), cut).rows
            && w.rows <= after.rows && GatewayRuns.AllExplained(kit.codec, after)
            && forall i :: 0 <= i < |after.rows| && after.rows[i].cacheHit ==>
                 GatewayRuns.Genuine(kit.codec, after, GatewayRuns.Chain(after.causes, i)[0])
  {
    hide GatewayRuns.Explained, GatewayRuns.Genuine, SceneAfter, AnswersIn, AnswersOf;
    var answers := AnswersOf(steps) + AnswersIn(cut);
    var after := GatewayRuns.After(kit.codec, w, OpsOf(kit, runId, answers), true);
    StepsAreAnswers(kit, runId, scene, steps);
    TurnsAreAnswers(kit, runId, SceneAfterSteps(kit, runId, scene, steps), cut);
    SceneAfterBoth(kit, runId, scene, AnswersOf(steps), AnswersIn(cut));
    AnswersAreAGatewayRun(kit, runId, w, scene, answers);
    GatewayRuns.RunsAreExplained(kit.codec, w, OpsOf(kit, runId, answers), true);
    forall i | 0 <= i < |after.rows| && after.rows[i].cacheHit
      ensures GatewayRuns.Genuine(kit.codec, after, GatewayRuns.Chain(after.causes, i)[0])
    {
      GatewayRuns.EveryHitHasGenuineOrigin(kit.codec, after, i);
    }
  }

  // ---- When the calls were made -------------------------------------------

  /** Each query was made at the moment next in turn. */
  ghost predicate Timed(kit: Kit, runId: string, scene: Scene, answers: seq<Answer>) {
    answers == [] ||
    (var n := |answers| - 1;
     && Timed(kit, runId, scene, answers[..n])
     && (answers[n].Dispatched? ==> MadeAt(answers[n].query, SceneAfter(kit, runId, scene, answers[..n]))))
  }

  ghost predicate MadeAt(q: Query, scene: Scene) {
    q.now == scene.moments(scene.used).now
  }

  lemma {:induction false} TurnIsTimed(kit: Kit, runId: string, scene: Scene, sectionId: string, t: Turn, n: nat)
    requires TurnOk(kit, runId, scene, sectionId, t) && n <= |t.answers|
    ensures Timed(kit, runId, scene, t.answers[..n])
  {
    hide SceneAfter, GatewayCall, SubmitVerdict;
    if n > 0 {
      TurnIsTimed(kit, runId, scene, sectionId, t, n - 1);
      assert t.answers[..n][..n - 1] == t.answers[..n - 1];
      assert AnswerOk(kit, runId, SceneAfter(kit, runId, scene, t.answers[..n - 1]), sectionId,
                      t.message.toolCalls[n - 1], t.answers[n - 1]);
    }
  }

  lemma {:induction false} TimedBoth(kit: Kit, runId: string, scene: Scene, a: seq<Answer>, b: seq<Answer>)
    requires Timed(kit, runId, scene, a) && Timed(kit, runId, SceneAfter(kit, runId, scene, a), b)
    ensures Timed(kit, runId, scene, a + b)
    decreases |b|
  {
    hide SceneAfter, MadeAt;
    if b == [] {
      assert a + b == a;
    } else {
      var n := |b| - 1;
      TimedBoth(kit, runId, scene, a, b[..n]);
      SceneAfterBoth(kit, runId, scene, a, b[..n]);
      assert (a + b)[..|a + b| - 1] == a + b[..n];
    }
  }

  lemma {:induction false} ConversationIsTimed(talk: Talk, prompts: seq<seq<Message>>, turns: seq<Turn>, n: nat)
    requires Conversation(talk, prompts, turns) && n <= |turns|
    ensures Timed(talk.kit, talk.runId, talk.scene, AnswersIn(turns[..n]))
  {
    hide TurnAt, Timed, SceneAfter, Complete, Sized;
    if n == 0 {
      NothingTimed(talk.kit, talk.runId, talk.scene);
    } else {
      var front, t := turns[..n - 1], turns[n - 1];
      ConversationIsTimed(talk, prompts, turns, n - 1);
      TurnInPlaceIsTimed(talk, prompts, front, t);
      TurnsAreAnswers(talk.kit, talk.runId, talk.scene, front);
      TimedBoth(talk.kit, talk.runId, talk.scene, AnswersIn(front), t.answers);
      assert turns[..n][..n - 1] == front;
    }
  }

  lemma TurnInPlaceIsTimed(talk: Talk, prompts: seq<seq<Message>>, done: seq<Turn>, t: Turn)
    requires TurnAt(talk, prompts, done, t)
    ensures Timed(talk.kit, talk.runId, SceneAt(talk, done), t.answers)
  {
    hide TurnOk, Transcript, InputTokens, Timed, SceneAt;
    assert t.answers[..|t.answers|] == t.answers;
    TurnIsTimed(talk.kit, talk.runId, SceneAt(talk, done), talk.sectionId, t, |t.answers|);
  }

  lemma NothingTimed(kit: Kit, runId: string, scene: Scene)
    ensures Timed(kit, runId, scene, [])
  {
  }

  /** Every query of the node was made at the moment next in turn. */
  lemma {:induction false} StepsAreTimed(s: Survey, prompts: seq<seq<Message>>, steps: seq<Step>, n: nat)
    requires AllTold(s, prompts, steps) && n <= |steps|
    ensures Timed(s.kit, s.runId, s.scene, AnswersOf(steps[..n]))
  {
    hide Timed, SceneAfter, AnswersIn, Conversation, EndsWith, Seen, InvokedBy;
    if n == 0 {
      NothingTimed(s.kit, s.runId, s.scene);
    } else {
      var front, step := steps[..n - 1], steps[n - 1];
      StepsAreTimed(s, prompts, steps, n - 1);
      assert Told(NextTalk(s, front), prompts, step);
      assert step.turns[..|step.turns|] == step.turns;
      ConversationIsTimed(NextTalk(s, front), prompts, step.turns, |step.turns|);
      StepsAreAnswers(s.kit, s.runId, s.scene, front);
      TimedBoth(s.kit, s.runId, s.scene, AnswersOf(front), AnswersIn(step.turns));
      assert steps[..n][..n - 1] == front;
    }
  }

  // ---- How old a cached answer is -----------------------------------------

  /** From now on the moments never go back. */
  ghost predicate Forward(scene: Scene) {
    forall a, b :: scene.used <= a <= b ==> scene.moments(a).now <= scene.moments(b).now
  }

  lemma {:induction false} MomentsRemain(kit: Kit, runId: string, scene: Scene, answers: seq<Answer>)
    ensures var after := SceneAfter(kit, runId, scene, answers);
            after.moments == scene.moments && after.used >= scene.used
  {
    hide GatewayCall;
    if answers != [] { MomentsRemain(kit, runId, scene, answers[..|answers| - 1]); }
  }

  function EndTime(ops: seq<SearchOp>, t: real): real
    decreases |ops|
  {
    if ops == [] then t else EndTime(ops[1..], Freshness.TimeAfter(ops[0], t))
  }

  lemma {:induction false} TimelyBoth(a: seq<SearchOp>, b: seq<SearchOp>, tool: string, version: string, t: real)
    requires Freshness.Timely(a, tool, version, t) && Freshness.Timely(b, tool, version, EndTime(a, t))
    ensures Freshness.Timely(a + b, tool, version, t) && EndTime(a + b, t) == EndTime(b, EndTime(a, t))
    decreases |a|
  {
    hide Freshness.AlwaysCached;
    if a == [] {
      assert a + b == b;
    } else {
      assert (a + b)[1..] == a[1..] + b;
      TimelyBoth(a[1..], b, tool, version, Freshness.TimeAfter(a[0], t));
    }
  }

  lemma QuietOp(op: SearchOp, rest: seq<SearchOp>, tool: string, version: string, t: real)
    requires !op.Ask? && (op.Register? ==> Freshness.AlwaysCached(op.policy, tool, version))
    requires Freshness.Timely(rest, tool, version, t)
    ensures Freshness.Timely([op] + rest, tool, version, t) && EndTime([op] + rest, t) == EndTime(rest, t)
  {
    hide Freshness.AlwaysCached;
    assert ([op] + rest)[1..] == rest;
  }

  /** Registering the tools takes no time and keeps every search tool cached. */
  lemma OpeningIsTimely(kit: Kit, runId: string, tool: string, version: string, t: real)
    requires tool != SUBMIT
    ensures Freshness.Timely(Opening(kit, runId), tool, version, t) && EndTime(Opening(kit, runId), t) == t
  {
    var ops := Opening(kit, runId);
    var none: seq<SearchOp> := [];
    assert Freshness.Timely(none, tool, version, t) && EndTime(none, t) == t;
    QuietOp(ops[4], none, tool, version, t);
    QuietOp(ops[3], [ops[4]] + none, tool, version, t);
    QuietOp(ops[2], [ops[3]] + ([ops[4]] + none), tool, version, t);
    QuietOp(ops[1], [ops[2]] + ([ops[3]] + ([ops[4]] + none)), tool, version, t);
    QuietOp(ops[0], [ops[1]] + ([ops[2]] + ([ops[3]] + ([ops[4]] + none))), tool, version, t);
    assert [ops[0]] + ([ops[1]] + ([ops[2]] + ([ops[3]] + ([ops[4]] + none)))) == ops;
  }

  lemma AskIsTimely(q: Query, tool: string, version: string, t: real)
    requires t <= q.now
    ensures var ops: seq<SearchOp> := [GatewayRuns.Ask(q)];
            Freshness.Timely(ops, tool, version, t) && EndTime(ops, t) == q.now
  {
    var ops: seq<SearchOp> := [GatewayRuns.Ask(q)];
    assert ops[1..] == [];
  }

  /** If the moments never go back, neither do the operations behind the answers. */
  lemma {:induction false} AnswersAreTimely(kit: Kit, runId: string, scene: Scene, answers: seq<Answer>, tool: string,
                                            version: string, t: real)
    requires tool != SUBMIT && Timed(kit, runId, scene, answers)
    requires Forward(scene) && t <= scene.moments(scene.used).now
    ensures var ops, after := OpsOf(kit, runId, answers), SceneAfter(kit, runId, scene, answers);
            Freshness.Timely(ops, tool, version, t) && EndTime(ops, t) <= scene.moments(after.used).now
  {
    hide Opening, GatewayCall, Clashes;
    if answers != [] {
      var n := |answers| - 1;
      var front, before := OpsOf(kit, runId, answers[..n]), SceneAfter(kit, runId, scene, answers[..n]);
      AnswersAreTimely(kit, runId, scene, answers[..n], tool, version, t);
      MomentsRemain(kit, runId, scene, answers[..n]);
      if answers[n].Dispatched? && !Clashes(answers[n].query.args) {
        var q, now := answers[n].query, EndTime(front, t);
        OpeningIsTimely(kit, runId, tool, version, now);
        AskIsTimely(q, tool, version, now);
        TimelyBoth(Opening(kit, runId), [GatewayRuns.Ask(q)], tool, version, now);
        TimelyBoth(front, Opening(kit, runId) + [GatewayRuns.Ask(q)], tool, version, t);
      } else {
        assert front + [] == front;
      }
    }
  }

  /** A payload Wide gets from the cache, after any answers before it, is at most an hour
      old if and only if some row of the key within the hour is not itself a hit. */
  lemma CachedAnswerIsFreshExactlyWhen(kit: Kit, runId: string, start: SearchWorld, scene: Scene, answers: seq<Answer>,
                                       call: ToolCall, reply: Result<ToolResult<SearchOutput>, CallError>, q: Query,
                                       t: real)
    requires Freshness.Ordered(kit.codec, start, call.name, kit.version(call.name)) && Freshness.Until(start, t)
    requires start.rows == scene.rows && Forward(scene) && t <= scene.moments(scene.used).now
    requires Timed(kit, runId, scene, answers) && call.name != SUBMIT
    requires FromGateway(kit, call, reply, runId, SceneAfter(kit, runId, scene, answers), q)
    requires reply.Ok? && reply.value.cacheHit
    ensures var w := GatewayRuns.After(kit.codec, start, OpsOf(kit, runId, answers) + Opening(kit, runId), true);
            var p, w' := WidePolicy(kit, call.name), GatewayRuns.Next(kit.codec, w, GatewayRuns.Ask(q), true);
            && w.rows == SceneAfter(kit, runId, scene, answers).rows
            && p.contract.validateIn(q.args).Some?
            && |w'.causes| > |w.rows| && GatewayRuns.Chain(w'.causes, |w.rows|)[0] < |w'.rows|
            && var age := q.now - w'.rows[GatewayRuns.Chain(w'.causes, |w.rows|)[0]].createdAt;
               var hash := InputHash(kit.codec, p.contract.validateIn(q.args).value);
               age <= 3600.0 <==> Freshness.GenuineEligible(w, p, hash, q.now, 3600)
  {
    hide Freshness.Ordered, Freshness.Until, Timed, Forward, Respond, Opening, SceneAfter, InputHash,
         GatewayRuns.Next, Freshness.GenuineEligible, Freshness.Timely, Clashes;
    var ops, version := OpsOf(kit, runId, answers), kit.version(call.name);
    Freshness.OrderedIsWellFormed(kit.codec, start, call.name, version);
    AnswersAreTimely(kit, runId, scene, answers, call.name, version, t);
    OpeningIsTimely(kit, runId, call.name, version, EndTime(ops, t));
    TimelyBoth(ops, Opening(kit, runId), call.name, version, t);
    AnswersAreAGatewayRun(kit, runId, start, scene, answers);
    AfterConcat(kit.codec, start, ops, Opening(kit, runId));
    AfterOpening(kit, runId, GatewayRuns.After(kit.codec, start, ops, true));
    SuccessMeansRegistered(kit, call, reply, runId, SceneAfter(kit, runId, scene, answers), q);
    Freshness.HitIsFreshExactlyWhen(kit.codec, start, ops + Opening(kit, runId), q, version, t);
  }

  lemma SuccessMeansRegistered(kit: Kit, call: ToolCall, reply: Result<ToolResult<SearchOutput>, CallError>,
                               runId: string, scene: Scene, q: Query)
    requires FromGateway(kit, call, reply, runId, scene, q) && reply.Ok? && call.name != SUBMIT
    ensures !Clashes(q.args) && q.tool == call.name && call.name in WidePolicies(kit)
    ensures WidePolicies(kit)[call.name] == WidePolicy(kit, call.name)
    ensures WidePolicy(kit, call.name).ttl == Some(3600) && WidePolicy(kit, call.name).version == kit.version(call.name)
  {
    hide Latest, InputHash, TruncationMarker, RunTool, ServeRow;
  }
}
