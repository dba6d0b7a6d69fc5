# LitWeave: a verified model of the pipeline's host code

LitWeave runs a chain of language-model agents - Planner, Researcher-Wide,
Researcher-Deep, Synthesizer, Writer - over a shared run state and a Postgres
database. This project models the deterministic code around the models and
proves what it guarantees whatever the models, the tools and the clocks do.
`dafny verify dfyconfig.toml` checks all of it.

## What is modelled

| modules | repository part | form |
|---|---|---|
| `Pipeline` | the chain of nodes in graph.py | method over the node models |
| `Wide`, `React` | agents/researcher_wide.py | loops and classes, specified by functions of the conversation |
| `Deep`, `EvidenceIds`, `SharedPaper` | agents/researcher_deep.py | loops over a store object, specified by a verdict function |
| `Synthesizer`, `Packing`, `Rerank`, `Grounding` | synthesis/synthesizer.py | loops for the dict and set passes, functions for the text and the accounting |
| `Writer` | writing/stub.py | loops; a line carries its citation marks as data |
| `ToolGateway`, `GatewayRuns`, `Freshness`, `WideAudit`, `Json` | runtime/tool_gateway.py | class over an append-only table, and runs of operations on it |
| `TokenBucket`, `Router` | llm/rate_limit.py | limiter class over a clock; lock regions of `get_llm` as a state machine |
| `Trust` | runtime/trust.py | functions on strings |
| `StructuredCall`, `Llm` | llm/structured_output.py | retry loop over a scripted model |
| `EvidenceStore`, `Budget` | runtime/evidence.py, runtime/budget.py | classes |

A model reply is an arbitrary function of the number of the invocation
(`script: nat -> Reply`): a message or an exception. Every prompt sent is recorded
(`llm.prompts`), so the contracts also say what each prompt was. Tool
implementations, schema validation, transaction times and tie-breaking between rows
with one timestamp are arbitrary too.

## Main results

- **Citations resolve over the whole run.** `Pipeline.RunPipeline`: from a store with
  no rows of the run, every mark of every published draft is the primary key of one
  row of that run and section, about a paper in the section's notes and in the deep
  queue; a claim's row is about the paper the claim names. When the run halts instead,
  the histories so far lead to the halt, and `HaltHasCause` names the event behind it;
  with generated run ids that is never a taken evidence id.
- **Caching is invisible, but its TTL slides.** `GatewayRuns.CachingIsInvisible` is
  refinement of the uncached gateway. `EveryHitHasGenuineOrigin` traces any hit, with
  arbitrary tools, back to a genuine run through links of at most one TTL each, and
  `TtlIsSliding` shows the chain can be as long as one likes: hit rows are themselves
  eligible, so a payload may be any number of TTLs old. `Freshness.HitIsFreshExactlyWhen`
  says when one TTL does bound it: if and only if some eligible row of the key is not
  itself a hit, which a caller can look up.
- **The token accounting is not the upper bound it is called.** The comment at
  synthesizer.py:94-95 speaks of a pessimistic upper bound on the prompt.
  `Packing.EstimateError` gives the exact gap, and
  `BoundsThePromptExactlyWhen` the exact condition; with three or more papers
  the accounting is always below the prompt.
- **Greedy rerank.** Papers stay whole, the selection fits and is maximal, something
  is dropped exactly on overflow (so the recheck at synthesizer.py:486-496 never
  fails), and with distinct scores the order of the rows read does not matter.
- **Rate limits hold under every interleaving.** One limiter per provider however the
  three lock regions of concurrent `get_llm` calls interleave, hence one exact
  token-bucket bound on the provider's whole traffic. The bound is attained.
- **The ReAct protocol, the hand-off and the queue.** Every prompt is the user message
  and complete blocks of a model message with its tool messages; at most three ids per
  section enter the queue; Deep removes exactly the web pages and the papers that had an
  abstract in an accepted section.

Where code and comments disagree the code is modelled: besides the accounting and the
TTL, researcher_deep.py:16-20 reads as if papers left the queue section by section,
while `processed` is one set over all sections, so a paper listed in two sections
leaves as soon as either accepts it (`SharedPaper.OneAcceptanceIsEnough`), while one
noted under a single section is sure to stay when that section is rejected
(`Deep.OwnSectionDecides`); and evidence numbering restarts in every pass, so id
uniqueness is a property of one pass (`Deep.SecondAcceptanceConflicts`).

## Model

| member | source | states |
|---|---|---|
| Pipeline.RunPipeline | src/litweave/graph.py:106-126 | Whole-run citation integrity for arbitrary replies and tools; the result, published or halted, is the one the nodes' histories lead to: notes and queue from each conversation's outcome, verdicts, extracts, drafts and the recorded category in turn, the histories taking up the invocations, prompts, tool log and evidence rows one after the other; ids stay unique, and a table filled only by such runs never refuses a row |
| Pipeline.HaltHasCause | src/litweave/graph.py:106-126 | A halt has a cause to point at: an exception the model's last invocation raised, an exception one of Deep's lookups or invocations for its last section raised, an unknown id a tool returned, or an evidence id taken before the run |
| Pipeline.EveryQueuedPaperGetsATurn | src/litweave/agents/researcher_deep.py:248-268 | The hand-off over a run: with distinct section ids, every paper Wide queued is noted under, and among the papers of, some section's turn in Deep |
| Pipeline.CitationsFollow | src/litweave/writing/stub.py:47-77 | Well-cited extracts plus Deep's history make every mark in every draft resolve to a row of the run and section |
| Pipeline.RowOfTheRunIsSupported | src/litweave/agents/researcher_deep.py:248-257 | A row of the run is about a paper that was in its section's notes and in the deep queue |
| Pipeline.MarkIsARow | src/litweave/writing/stub.py:60-77 | A mark written for a well-cited extract, from a claim or a synthesis, is a row of the run and section |
| Pipeline.FreshRunFindsNoIdTaken | src/litweave/runtime/runs.py:67-93 | Because run ids hold no dash, a fresh run meets none of its evidence ids among the rows of earlier runs |
| Pipeline.RunKeepsGenerated | src/litweave/agents/researcher_deep.py:424-450 | That shape of the table is kept by a run, so it holds over any series of runs |
| Trust.EscapeIsPerCharacter | src/litweave/runtime/trust.py:32-40 | The successive replacements never rewrite each other's output: escaping is a map over characters |
| Trust.EscapedIsInert | src/litweave/runtime/trust.py:25-40 | Escaped text holds nothing that opens or closes a tag, nor, in attributes, a quote |
| Trust.UnescapeInvertsEscape | src/litweave/runtime/trust.py:43-51 | One pass of unescaping gives back any escaped text |
| Trust.ReadsBlock | src/litweave/runtime/trust.py:15-22 | The pattern reads a printed block back part by part |
| Trust.RoundTrip | src/litweave/runtime/trust.py:25-51 | From any concatenation of wrapped packs with tag-free text between, extracting an id gives the content of the first pack with that id |
| Trust.FirstContentFails | src/litweave/runtime/trust.py:48-51 | The search fails exactly when no pack has the id |
| Trust.WrapperIsLabelled | src/litweave/runtime/trust.py:32-40 | The wrapped text opens with the escaped id, the untrusted label and the escaped tool name, and ends with both closing tags |
| TokenBucket.GrantKeepsBound | src/litweave/llm/rate_limit.py:44-60 | A grant keeps the level in [0, burst] and the bound on every window of grants |
| TokenBucket.ServedWithinBound | src/litweave/llm/rate_limit.py:24-60 | Grants i to j number at most burst + rate * (t_j - t_i), from any level and over any run |
| TokenBucket.BoundPerMinute | src/litweave/llm/rate_limit.py:31-60 | The same in the unit of the settings: grants i to j number at most burst + rpm * (t_j - t_i) / 60 |
| TokenBucket.EmptyBucketIsReadyExactlyFrom | src/litweave/llm/rate_limit.py:31-52 | An empty bucket has a token again exactly 60 / rpm seconds later, neither sooner nor later |
| TokenBucket.BoundIsAttained | src/litweave/llm/rate_limit.py:24-60 | The greediest run is served and meets the bound with equality |
| TokenBucket.RefillTwice | src/litweave/llm/rate_limit.py:54-60 | Reading the clock more often never changes the level |
| TokenBucket.WaitSuffices | src/litweave/llm/rate_limit.py:48-51 | Sleeping the computed shortfall is enough for a token |
| TokenBucket.ProviderRateLimiter.Create | src/litweave/llm/rate_limit.py:31-42 | Non-positive settings are refused and no others; a new bucket is full |
| TokenBucket.ProviderRateLimiter.RefillNow | src/litweave/llm/rate_limit.py:54-60 | The level becomes the refill of the old one at the clock's time |
| TokenBucket.ProviderRateLimiter.Acquire | src/litweave/llm/rate_limit.py:44-52 | Exactly one grant is logged, at a moment a token was ready; all grants keep to burst + rpm * span / 60; the loop sleeps at most once, for the shortfall, and terminates |
| Router.StepKeeps | src/litweave/llm/rate_limit.py:128-173 | Every lock region of every call, in any order, keeps the registry one-to-one and all models throttled |
| Router.AtMostOneLimiterPerProvider | src/litweave/llm/rate_limit.py:166-173 | Under every interleaving no provider ever gets a second limiter |
| Router.ReturnedModelsAreThrottled | src/litweave/llm/rate_limit.py:128-155 | Every model ever returned, even from racing calls, carries its provider's one limiter, now and later |
| Router.ProviderTrafficWithinBound | src/litweave/llm/rate_limit.py:90-98 | The provider's total traffic keeps to burst + rpm * span / 60 with the provider's own numbers, or the default ones if it has none |
| Router.RequestIsSentExactlyWhenReady | src/litweave/llm/rate_limit.py:90-98 | A request through a returned model goes out exactly when its provider's bucket has a token, and takes that token and no other |
| Router.RateLimitedRouter.LimiterForProvider | src/litweave/llm/rate_limit.py:166-173 | An existing limiter is reused untouched; a new one is built once with the configured limits |
| Router.RateLimitedRouter.GetLlm | src/litweave/llm/rate_limit.py:128-155 | Run alone, the method is one path of the state machine, errors included |
| Json.StripLeavesNoSecret | src/litweave/runtime/tool_gateway.py:84-98 | No secret-named field remains at any depth |
| Json.StripFixesSecretFree | src/litweave/runtime/tool_gateway.py:84-98 | Sanitizing changes nothing exactly when there is no secret |
| Json.StripKeepsTheRest | src/litweave/runtime/tool_gateway.py:84-98 | Every path without a secret name leads where it led before, and no other path leads anywhere |
| Json.SecretNames | src/litweave/runtime/tool_gateway.py:84-98 | A name is secret exactly if it mentions one of the five words, in whatever case |
| Json.SanitizesAlikeExactlyWhen | src/litweave/runtime/tool_gateway.py:84-98 | Two argument lists sanitize to the same exactly if they agree on every path without a secret name |
| ToolGateway.Latest | src/litweave/runtime/tool_gateway.py:216-232 | The row chosen is eligible and none eligible is newer; none is chosen only if none is eligible |
| ToolGateway.ToolGateway.Register | src/litweave/runtime/tool_gateway.py:119-121 | Policy and implementation are replaced together and nothing else changes |
| ToolGateway.ToolGateway.LookupCache | src/litweave/runtime/tool_gateway.py:213-232 | The scan finds the row the query orders first |
| ToolGateway.ToolGateway.Call | src/litweave/runtime/tool_gateway.py:123-211 | Result and the one row logged, on every path: unregistered, denied, invalid input, hit, failure, invalid output, truncation |
| ToolGateway.HashesAgreeExactlyWhen | src/litweave/runtime/tool_gateway.py:101-105 | With an injective digest, two calls share an input hash if and only if their arguments agree on every path without a secret name |
| GatewayRuns.EveryInvocationIsLogged | src/litweave/runtime/tool_gateway.py:123-211 | Exactly the calls past registry, role and input checks leave a row, under their own run, role, time, version and hash |
| GatewayRuns.ServedExactlyWhen | src/litweave/runtime/tool_gateway.py:136-152 | A valid call is answered from the table exactly if the tool is idempotent, has a TTL other than zero, and a complete row of its version and hash lies within it; otherwise the tool runs |
| GatewayRuns.TruncatesExactlyWhenTooLarge | src/litweave/runtime/tool_gateway.py:190-211 | The logged payload is replaced by a marker with its size exactly if it is over the limit; the caller gets the full output either way |
| GatewayRuns.RunsAreExplained | src/litweave/runtime/tool_gateway.py:123-265 | Over any run of registrations and calls, every row stems from an execution or from an earlier eligible row with the same key and payload |
| GatewayRuns.EveryHitHasGenuineOrigin | src/litweave/runtime/tool_gateway.py:136-152 | With arbitrary tools, a hit's chain starts at a successful untruncated execution; no failed or truncated row is on it; each gap is within the TTL then in force |
| GatewayRuns.HitReturnsOriginalPayload | src/litweave/runtime/tool_gateway.py:136-152 | What a hit returns is the payload of that execution, of the version registered now |
| GatewayRuns.HitAnswersTheSameQuestion | src/litweave/runtime/tool_gateway.py:133-152 | The arguments of the execution a hit stems from agree with those of the call on every path without a secret name |
| GatewayRuns.AgeIsBoundedByLinks | src/litweave/runtime/tool_gateway.py:213-232 | A payload served through n links is at most n TTLs old |
| GatewayRuns.TtlIsSliding | src/litweave/runtime/tool_gateway.py:216-226 | The bound is attained for every n: one TTL does not bound a payload's age |
| Freshness.RunsKeepOrder | src/litweave/runtime/tool_gateway.py:213-232 | While a tool version stays cached and the clock never goes back, every hit serves the newest reusable row of its key and the tool runs only when all such rows have expired |
| Freshness.ChosenIsFreshExactlyWhen | src/litweave/runtime/tool_gateway.py:216-232 | The payload of the row a lookup chooses is within the TTL if and only if the lookup without hit rows would find a row |
| Freshness.HitIsFreshExactlyWhen | src/litweave/runtime/tool_gateway.py:136-152 | Over any such run, a payload served is at most one TTL old if and only if some eligible row of the key is not itself a hit |
| GatewayRuns.ServingAgreesWithRunning | src/litweave/runtime/tool_gateway.py:136-152 | For a tool determined by its sanitized input, serving a sound row answers as executing would |
| GatewayRuns.CachingIsInvisible | src/litweave/runtime/tool_gateway.py:123-211 | Over any sequence of operations, re-registrations under new versions included, the cached gateway answers as the uncached one |
| Budget.BudgetManager.Check | src/litweave/runtime/budget.py:91-102 | Refused exactly above the role's limit; only that role's overflow counter moves, by one |
| Budget.BudgetManager.RecordUsage | src/litweave/runtime/budget.py:104-112 | Both token counters of the one role grow, nothing else changes |
| StructuredCall.Settle | src/litweave/llm/structured_output.py:110-152 | A call consumes at least one reply and at most one more than its retries |
| StructuredCall.Invoke | src/litweave/llm/structured_output.py:66-152 | First valid reply wins; all earlier ones were rejected; each retry quotes only the last rejection; at most 1 + max_retries invocations; failure only after all |
| StructuredCall.JudgesByTheSchema | src/litweave/llm/structured_output.py:114-131 | An answer is worth exactly the value it offers - arguments of the first call of the tool, else what the text yields - and only if the schema takes it |
| StructuredCall.PromptsCarryTheMessages | src/litweave/llm/structured_output.py:91-147 | The caller's messages are in every prompt; the schema leads every retry, and the first prompt where tools are not supported; a retry quotes the last rejection |
| EvidenceStore.Store.Save | src/litweave/runtime/evidence.py:58-68 | Refused exactly on a taken id, leaving the table alone; uniqueness is kept |
| EvidenceStore.Store.Load | src/litweave/runtime/evidence.py:70-79 | Fails exactly when no row has the id, and otherwise returns such a row |
| EvidenceStore.LoadIsUnique | src/litweave/runtime/evidence.py:70-79 | Under the primary key an id determines its row |
| EvidenceStore.Store.ListBySection | src/litweave/runtime/evidence.py:81-90 | Exactly the rows of run and section, each as often as stored |
| EvidenceStore.MatchingCounts | src/litweave/runtime/evidence.py:81-90 | A row comes back as often as it is stored if it is of the run and section, and else not at all |
| Packing.GroupByPaper | src/litweave/synthesis/synthesizer.py:98-100 | Papers in first-appearance order, each with its own items in order |
| Packing.BlockText | src/litweave/synthesis/synthesizer.py:72-83 | One block of the prompt, spelled out |
| Packing.PromptKeepsOrder | src/litweave/synthesis/synthesizer.py:157-173 | The prompt begins with the template and holds the blocks in the order of the items |
| Decimal.Fixed2IsNearest | src/litweave/synthesis/synthesizer.py:72-83 | The confidence shown has two decimals and is off by at most half a hundredth |
| Packing.PackedTotalTokens | src/litweave/synthesis/synthesizer.py:86-110 | The loops compute header, per-paper blocks and joiners as the accounting says |
| Packing.PackedIgnoresOrder | src/litweave/synthesis/synthesizer.py:86-110 | Permuting the items, across papers too, never changes the total |
| Packing.WeightSplitsByPaper | src/litweave/synthesis/synthesizer.py:72-110 | The joint text is as long as the per-paper blocks together, however papers interleave |
| Packing.EstimateError | src/litweave/synthesis/synthesizer.py:86-110 | packed <= sent <= packed + (5P+2)/4 for P papers, and the gap exactly |
| Packing.BoundsThePromptExactlyWhen | src/litweave/synthesis/synthesizer.py:86-110 | The accounting bounds the prompt if and only if the rounding slack is under one token; never for three papers or more |
| Packing.ThreePapersExceedTheirEstimate | src/litweave/synthesis/synthesizer.py:86-110 | Three papers with one short item each, for which the accounting is below the prompt |
| Rerank.TopKRerank | src/litweave/synthesis/synthesizer.py:113-154 | The packing loop returns the greedy selection, with its items, and the dropped papers |
| Rerank.SortDescends | src/litweave/synthesis/synthesizer.py:132-140 | The ranking puts no paper before one with a higher score |
| Rerank.RankedByMeanThenCount | src/litweave/synthesis/synthesizer.py:132-154 | In plain sums and counts: ranking, papers kept and papers dropped go by higher mean confidence, then by more items |
| Rerank.SortIsStable | src/litweave/synthesis/synthesizer.py:132-140 | Papers with equal scores keep their first-appearance order |
| Rerank.RerankKeepsRankOrder | src/litweave/synthesis/synthesizer.py:113-154 | The ranking permutes the papers; kept and dropped ones each follow it |
| Rerank.PapersAreKeptWholeOrDropped | src/litweave/synthesis/synthesizer.py:113-154 | Kept and dropped partition the papers; a kept paper has all its items in order, a dropped one none |
| Rerank.SelectionFits | src/litweave/synthesis/synthesizer.py:486-496 | A non-empty selection is within the budget, so the recheck cannot fail |
| Rerank.SelectionIsMaximal | src/litweave/synthesis/synthesizer.py:140-154 | No dropped paper fits beside the final selection |
| Rerank.DroppedOutweighsLaterAccepted | src/litweave/synthesis/synthesizer.py:140-154 | A dropped paper's block is larger than all lower-ranked accepted blocks together |
| Rerank.DropsExactlyOnOverflow | src/litweave/synthesis/synthesizer.py:465-477 | Something is dropped if and only if the section did not fit at first |
| Rerank.RerankIgnoresRowOrder | src/litweave/synthesis/synthesizer.py:132-154 | With distinct scores, the order the query returns changes neither kept nor dropped papers |
| Grounding.CollectPapers | src/litweave/synthesis/synthesizer.py:241-258 | The set gathered is every paper id mentioned in any of six places and no other |
| Grounding.CollectEvidence | src/litweave/synthesis/synthesizer.py:260-278 | Likewise for evidence ids, matrix cells included |
| Grounding.SupportedBy | src/litweave/synthesis/synthesizer.py:304-332 | A synthesis passes exactly if its evidence is from its papers and covers them all |
| Grounding.ValidateGrounding | src/litweave/synthesis/synthesizer.py:182-382 | Sound and complete: accepts exactly grounded output, and names the first layer that fails |
| Grounding.AcceptedCoversExactlyTheInput | src/litweave/synthesis/synthesizer.py:355-382 | Papers cited, with facts, and with rows are each exactly the input papers |
| Grounding.SynthesisEvidenceCoversItsPapers | src/litweave/synthesis/synthesizer.py:304-332 | The papers behind a synthesis's evidence are exactly its papers, so it has at least as many evidence ids |
| Grounding.AcceptanceSurvivesMoreEvidence | src/litweave/synthesis/synthesizer.py:182-382 | More evidence for the same papers never turns acceptance into rejection |
| Synthesizer.AskGrounded | src/litweave/synthesis/synthesizer.py:513-577 | One or two invocations; the second exactly after an unacceptable answer or a model validation error, with the repair request for that very cause; acceptance only of grounded output |
| Synthesizer.SynthesizeSection | src/litweave/synthesis/synthesizer.py:431-595 | The section's result follows from the rows read and the replies; the prompt sent contains exactly the surviving items |
| Synthesizer.Run | src/litweave/synthesis/synthesizer.py:420-602 | Every section's entry is justified by the rows it read and by its own turn's replies, its prompts carry the surviving items, and the turns take up all invocations in order, at most two a section; the state is the fold of the entries |
| Synthesizer.OnlyTheModelAborts | src/litweave/synthesis/synthesizer.py:570-577 | The node raises only an unclassified exception of the model |
| Synthesizer.EmptyOutputIsGrounded | src/litweave/synthesis/synthesizer.py:385-404 | The empty output passes the grounding check of a section without evidence and has exactly one gap per item that had to be found, in order |
| Synthesizer.TruncationAddsOneGap | src/litweave/synthesis/synthesizer.py:582-593 | A truncation keeps the output and its gaps, and adds one gap at the end naming every paper dropped |
| Synthesizer.InputsAreTheItems | src/litweave/synthesis/synthesizer.py:498-501 | The output is checked against exactly the papers and ids of the items, each id belonging to its item's paper |
| Synthesizer.PromptIsBounded | src/litweave/synthesis/synthesizer.py:448-496 | A prompt exceeds 96000 tokens by no more than the rounding of the accounting: (5P + 2) / 4 tokens for P papers |
| Synthesizer.EachSectionKeepsItsOwn | src/litweave/synthesis/synthesizer.py:595-602 | With distinct ids no section's extract is touched by another's turn |
| Synthesizer.SectionExtractIsEmptyGroundedOrUnchanged | src/litweave/synthesis/synthesizer.py:431-595 | The final extract is the structured empty one exactly when there are no rows or, with an overflow recorded, not one paper fits; otherwise grounded in the surviving items with a truncation gap exactly on overflow, or unchanged after two unacceptable answers or an exception, with its category recorded |
| Synthesizer.StoredExtractIsWellCited | src/litweave/synthesis/synthesizer.py:498-540 | Every evidence id in a stored extract is a row of the run and section; a claim's row has the claim's paper |
| Synthesizer.AllExtractsWellCited | src/litweave/synthesis/synthesizer.py:431-602 | This is kept by the whole node, even with repeated section ids |
| React.RegisterWideTools | src/litweave/agents/researcher_wide.py:95-114 | The fresh gateway holds exactly the four tools with their roles, TTLs and trust |
| React.WideTool | src/litweave/agents/researcher_wide.py:95-114 | Who may call each tool, that all but the submission are cached for an hour, and that only web results are untrusted |
| React.PaperIdsAreThoseListed | src/litweave/agents/researcher_wide.py:163-191 | The ids extracted are exactly the non-empty ones listed in the form of the tool, and only the three search tools have an extraction |
| React.SubmissionIsAcceptedExactlyWhen | src/litweave/agents/researcher_wide.py:273-300 | Accepted is exactly a submission that parses and names the section; the feedback names what was got and what was expected, in that order |
| React.OnlySearchToolsSucceed | src/litweave/agents/researcher_wide.py:163-191 | A successful call is to a known search tool, so the unknown-tool error is unreachable; only web results are untrusted |
| React.Dispatch | src/litweave/agents/researcher_wide.py:302-327 | The query is made at the next moment; the answer is the one a fresh gateway gives for this run over the log as it stands, whose row is all that is added, or the TypeError of colliding argument names, which leaves no row; the ids are those in a successful answer |
| React.ClashExactlyWhen | src/litweave/agents/researcher_wide.py:306-313 | The TypeError is the answer exactly if an argument is named self, role or tool_name, and then nothing is logged |
| React.AnswerCalls | src/litweave/agents/researcher_wide.py:268-327 | Calls are answered one each in order, up to an accepted submission for the right section; each answer is the gateway's at the next moment, over the log the earlier ones left |
| React.ReactOneSection | src/litweave/agents/researcher_wide.py:214-334 | At most eight invocations, each with at most 24000 recorded input tokens; the prompts are the transcript, the tool log and the moments used up are those the answers account for, the role's usage grows by exactly what the replies report, and the outcome is the one the conversation leads to, on every exit |
| React.EndShape | src/litweave/agents/researcher_wide.py:221-334 | Exactly one of output and category is set, and an output bears the section's id |
| React.SeenWasReturned | src/litweave/agents/researcher_wide.py:315-316 | The ids seen are exactly those in the results of successful calls |
| React.EveryPromptFollowsTheProtocol | src/litweave/agents/researcher_wide.py:230-327 | Every prompt is one user message and blocks of a model message followed by one tool message per call with its id; each extends the one before |
| React.LastPromptFollowsTheProtocol | src/litweave/agents/researcher_wide.py:230-327 | The same for the prompt of an invocation that raised |
| React.WebResultsAreWrapped | src/litweave/agents/researcher_wide.py:318-327 | Web text reaches the model only wrapped, and unwrapping by the turn's id restores it |
| React.ErrorsAreTold | src/litweave/agents/researcher_wide.py:277-313 | Feedback and tool errors reach the model as their text |
| Wide.SortSet | src/litweave/agents/researcher_wide.py:445-445 | The ascending list of the set's elements, whatever order it is traversed in |
| Wide.AscendingIsUnique | src/litweave/agents/researcher_wide.py:428-445 | There is only one such list, so set order leaves no trace in the queue |
| Wide.BeforeExactlyWhen | src/litweave/agents/researcher_wide.py:445-445 | The order is that of the first differing character, a proper beginning coming first |
| Wide.RecordHandoff | src/litweave/agents/researcher_wide.py:406-414 | The queue grows by the capped flagged ids |
| Wide.RecordCapped | src/litweave/agents/researcher_wide.py:445-448 | The queue grows by those of the capped ids not in it |
| Wide.WriteStubs | src/litweave/agents/researcher_wide.py:434-444 | One stub per id seen, none missing or twice, or the id without a known prefix |
| Wide.SourceIsThePrefix | src/litweave/agents/researcher_wide.py:145-160 | The source is the prefix of the id, one of three, and missing exactly if the id has none of them |
| Wide.FlaggedAddsAreFirst | src/litweave/agents/researcher_wide.py:406-414 | The ids added are the first three flagged ids not yet queued, without repeats, in order |
| Wide.SectionHandoff | src/litweave/agents/researcher_wide.py:395-448 | Old queue a prefix, no repeats, at most three added; a forced exit adds only ids among the three smallest seen and leaves none of those three out; all are in the section's notes |
| Wide.Run | src/litweave/agents/researcher_wide.py:351-460 | The sections' conversations account for every invocation and every tool-log row in order, and their outcomes determine notes and queue; an exception comes with the unfinished conversation that led to it, an unknown id with the tool result it was in |
| Wide.RunSection | src/litweave/agents/researcher_wide.py:370-448 | One section: conversation, notes and queue on success, and on failure the conversation cut short or the id without a known prefix it had seen |
| WideAudit.WideIsAGatewayRun | src/litweave/agents/researcher_wide.py:302-313 | The log left behind is that of one run of gateway operations, so every hit in any conversation has a genuine origin |
| WideAudit.StepsAreTimed | src/litweave/agents/researcher_wide.py:302-313 | The node's tool calls took the moments one after the other |
| WideAudit.CachedAnswerIsFreshExactlyWhen | src/litweave/agents/researcher_wide.py:95-114 | If the moments never go back, a payload Wide gets from the cache is at most an hour old if and only if some row of the key within the hour is not itself a hit |
| Wide.HandoffReachesDeep | src/litweave/agents/researcher_wide.py:370-460 | Over the node, with distinct ids, every id added is in the final notes of the very section that added it |
| Deep.FetchAbstract | src/litweave/agents/researcher_deep.py:182-220 | It fails exactly when the primary tool raised and no fallback was due and successful, with the primary error; web pages are never fetched; an empty abstract is none |
| Deep.FetchedTextIsTheLookups | src/litweave/agents/researcher_deep.py:147-220 | The text is exactly what s2_lookup found or, after a transient error on an arxiv paper, what arxiv_lookup found; the kinds of error that fail the fetch are spelled out |
| Deep.FallbackOnlyAfterTransientErrors | src/litweave/agents/researcher_deep.py:147-220 | The second tool matters only for arxiv papers after a transient error of the first |
| Deep.QueuedPapers | src/litweave/agents/researcher_deep.py:248-257 | Exactly the papers in the section's notes and in the queue |
| Deep.QueuedPapersKeepOrder | src/litweave/agents/researcher_deep.py:253-257 | They come in note order and as often as noted |
| Deep.FetchAbstracts | src/litweave/agents/researcher_deep.py:274-290 | Fetched in order up to the first exception, as the specification says |
| Deep.FetchedPapers | src/litweave/agents/researcher_deep.py:274-310 | The dict holds exactly the papers asked for that had an abstract, none of them web pages; each is listed once in the prompt |
| Deep.FetchedTexts | src/litweave/agents/researcher_deep.py:279-290 | A paper's text in the prompt is what the lookups gave at one of its fetches |
| Deep.AbstractsInOrder | src/litweave/agents/researcher_deep.py:313-321 | The texts stand in the prompt paper by paper, each after its id |
| Deep.MessageHoldsTheAbstracts | src/litweave/agents/researcher_deep.py:313-321 | The prompt begins with the template for the papers read and ends with their texts |
| Deep.CheckAnswer | src/litweave/agents/researcher_deep.py:367-397 | Accepts exactly answers that name the section, cover all papers given and mention no other |
| Errors.ClassifiedExactlyWhen | src/litweave/runtime/errors.py:22-57 | 429, 500 to 599 and the two validation errors are classified, and nothing else |
| Deep.Persist | src/litweave/agents/researcher_deep.py:408-450 | All the section's rows or none; none exactly when an id is taken |
| Deep.ProcessSection | src/litweave/agents/researcher_deep.py:265-450 | The verdict is the one the lookups, replies and rows call for on every path; the prompts are those of the section's call; exactly an accepted section's rows are added; exactly an oversized prompt counts as an overflow |
| Deep.VerdictIsFair | src/litweave/agents/researcher_deep.py:265-406 | An acceptance rests on a reply of the model and is about exactly the papers that had an abstract; a rejection has its cause - a prompt over 160000 tokens, an exception of that category, or a last reply that is no acceptable answer; a passed section had nothing to read; the node ends only on an unclassified exception of a lookup or an invocation, or on a taken id |
| Deep.EntryIsFair | src/litweave/agents/researcher_deep.py:265-406 | The same for every entry of a pass, whose papers are those noted and queued |
| Deep.Run | src/litweave/agents/researcher_deep.py:232-465 | Every section with queued papers has exactly one entry; each entry's verdict and prompts follow from the lookups, replies and rows it met, fetches and invocations going on where the last entry ended; rows, queue and category follow from the entries; a taken id was taken before the pass |
| Deep.QueueIsConserved | src/litweave/agents/researcher_deep.py:457-465 | The new queue is the old one in order, with every copy, minus the web pages and exactly the papers that had an abstract in an accepted section; those came from the queue and from the section's notes |
| Deep.OwnSectionDecides | src/litweave/agents/researcher_deep.py:399-465 | A non-web paper noted under one section only leaves the queue exactly if that section is accepted with its abstract, and otherwise stays with every copy |
| SharedPaper.OneAcceptanceIsEnough | src/litweave/agents/researcher_deep.py:399-406 | A pass in which one section is rejected and the other, sharing its paper, accepted: the paper leaves the queue |
| Deep.AcceptedRowsAreTheCards | src/litweave/agents/researcher_deep.py:408-450 | The rows are the section's cards in order, numbered from 0; the second paper test drops nothing |
| Deep.AcceptedRowIsItsCard | src/litweave/agents/researcher_deep.py:408-450 | An accepted section has one row per card of its own, the i-th being the i-th card with number i |
| Deep.SectionGainsItsOwnRows | src/litweave/agents/researcher_deep.py:265-450 | What the pass adds under a section is its entry's rows, and nothing without an acceptance |
| Deep.EarlierSectionsDoNotConflict | src/litweave/agents/researcher_deep.py:408-450 | Within a pass no section takes another section's ids |
| Deep.SecondAcceptanceConflicts | src/litweave/agents/researcher_deep.py:408-450 | A later pass over a section that has rows cannot store any card |
| EvidenceIds.EvidenceIdInjective | src/litweave/agents/researcher_deep.py:424-425 | Within a run, section and number are determined by the id, for arbitrary section ids |
| EvidenceIds.IdsCanCollideAcrossRuns | src/litweave/agents/researcher_deep.py:424-425 | Across runs they are not, when a run id may hold a dash |
| EvidenceIds.IdsCollideExactlyWhen | src/litweave/agents/researcher_deep.py:424-425 | Two runs share an id if and only if the numbers agree and one run id extends the other by a dash and the start of the other's section id |
| Writer.ClaimLines | src/litweave/writing/stub.py:60-67 | One line per claim with its text and its evidence id as mark, in order, or the line that there is no evidence |
| Writer.SynthesisLines | src/litweave/writing/stub.py:69-77 | The cross-paper section has a line per synthesis with its text and all its evidence ids as marks, in order |
| Writer.PlainSections | src/litweave/writing/stub.py:79-120 | Matrix, categories and gaps appear row by row as laid out, and carry no marks |
| Writer.CellsByDimension | src/litweave/writing/stub.py:93-94 | A cell shows the row's value for its dimension, and is empty without one |
| Writer.JoinKeepsOrder | src/litweave/writing/stub.py:88-98 | Joined text holds the parts in order with the separator between neighbours |
| Writer.WriteSection | src/litweave/writing/stub.py:47-120 | A draft has exactly its layout, line by line; it cites exactly what its extract cites, and nothing without an extract |
| Writer.Write | src/litweave/writing/stub.py:46-124 | Every outline section is drafted, the last section of an id giving the draft, and no other draft changes |

## Left out

- EvidenceStore.Store.ListBySection: promises only which rows come back, not their order, because rows of one transaction share `created_at`; everything downstream is proved for every order.
- GatewayRuns.CachingIsInvisible: assumes an injective digest, tools determined by their sanitized input and outputs unchanged by dump and validate; the provenance lemmas assume none of it.
- Deep takes the sections, and Wide writes the stubs of a forced exit, in any order; the original follows dict and set order.
- The Planner: the outline is an arbitrary input, its sections already valid.
- Deep's abstract fetches go to a lookup function instead of a gateway, and evidence rows straight to the store, so their audit rows are not modelled.
- Schema validation, JSON text and its byte size, and SHA-256 are parameters of `Contract`, `Codec` and `Format`.
- HTTP tools, LangGraph and its checkpointer, tracing metadata, connection pools, the CLI and YAML routing: network and library plumbing.
- Run rows: stage, status and error-category updates, and the foreign key from evidence to runs; they are column writes without branches. The recorded category itself is modelled.
- Latency fields and random call ids: a call is identified by the position of its row.
- Binary floating point: tokens, confidences and averages are reals, and two-decimal text rounds halves up.
- Ids quoted in the mismatch feedback and in the truncation gap stand in plain single quotes; Python's `repr` would switch or escape quotes inside them.
- Lower-casing is ASCII only, and unescaping knows the five entities that escaping produces.
- Marks are data of a line; marker-like text inside claim strings is not parsed back.
- Callbacks passed to `get_llm` by a caller are opaque and take no tokens.
- A limiter's `acquire` is one step of the router machine, as it holds the limiter's lock from start to end.
- The wording of prompts and repair requests is a parameter, apart from the retry and mismatch texts whose content matters.
- Prefix checks on paper ids and role bindings other than provider choice: one-branch members.
- Freshness.HitIsFreshExactlyWhen: supposes that `created_at` never decreases along the table, which transactions running side by side could break.
