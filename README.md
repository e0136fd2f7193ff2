# Kai: a verified model of the assistant's core

Kai is a local-first personal assistant. A query goes through these stages:

- **Analysis and routing.** The query is scored for complexity and capabilities. It is then routed to a local model or to one of three external tiers (Grok, Sonnet, Opus), under per-session and total spending caps.
- **Planning.** The planner asks a model for a JSON step plan. When the reply cannot be parsed, it builds a fixed fallback plan ending in a finalization step.
- **Execution.** The executor validates the plan and orders it with Kahn's topological sort. It runs the tool steps, resolving `FROM_<step>` references against earlier results, and records a missing or failing tool as a `failed` or `skipped` result rather than stopping. It escalates to the strong specialist model after a suspicious sanity check.
- **Presentation.** The presenter numbers the citations. The response post-processor removes search tags, normalises whitespace and de-duplicates sources.

Around this pipeline sit stateful containers:

- the conversation context window, trimmed to a token budget;
- a token-bucket rate limiter;
- a metrics collector with a bounded history;
- a memory store that deduplicates by normalised hash, expires items by TTL and injects memories under a token budget;
- a file-backed memory vault with prune and list;
- the rage-feedback trainer;
- the reflection agent's learning extraction and distillation sweep;
- the ChatGPT history importer.

The OpenAI-compatible API layer converts requests, responses and stream chunks.

Each source file of the core is one Dafny module, in a file of the same name:

- `plan_executor.py` becomes `PlanExecutor`, with `PlanOrder` and `PlanExecution` for the sort and the step loop.
- `sanity_checker.py` becomes `SanityChecker`.

Shared modules define:

- `Wrappers`: Option and Result;
- `Json`: an abstract JSON value, with objects as ordered key/value sequences, since Python dict order is observable;
- `Text`: ASCII case folding, substring search, split, join and strip;
- `JsonExtract`: the three-strategy JSON extraction that the planner, the verifier and the presenter share;
- `Seqs` and `Sorting`: sequence helpers and a descending insertion sort.

Code that updates state in place is modelled as classes with `modifies` frames. Examples are `CostTracker.Tracker`, `Conversation.Session`, `RateLimiter.Limiter`, `MetricsCollector.Collector`, `MemoryBackend.Store`, `MemoryVault.Vault`, `RageTrainer.Trainer` and `ChatgptImporter.Importer`. Each of their loops is a `while` loop with invariants, proved against a specification function. Code that only computes is modelled as functions and lemmas.

Outside effects enter the model as parameters:

- the language-model connectors, as functions from prompt to reply or error;
- `json.loads`, as a partial parser;
- sha256 and uuid, as an injective function and given hex digits;
- the clock, as `now`; record ids and creation times, as a `stamp` function;
- `datetime.fromisoformat`, as a `DateParse` function that also tells whether an instant is naive or UTC-aware;
- the regular-expression number scans, as pre-extracted matches;
- the Docker sandbox, as a function from code to outcome (timed out, raised, or exited with logs).

The literal `<search>` tag and code-fence patterns are matched by hand-written scanners.

Where a design comment and the code disagree, the model follows the code:

- The presenter is documented as never raising. However, `finalize` builds its citation map outside its `try` (src/core/presenters/granite_presenter.py), so a malformed tool result raises. `GranitePresenter.Finalize` returns that error.
- The router's routing table says very complex queries go to Opus. The code sends every score of 0.75 or more to Sonnet first (see Findings).
- The vault-API handlers call `vault.get_all` and `vault.delete`, which the vault class does not define. `MemoryVaultApi.ShippedVaultFails` states what the handlers then answer. The other handler lemmas take the two calls as parameters.
- The project's integration test for the distillation sweep expects "completed". As written, the sweep fails on records that the vault itself wrote (see Findings).

## Model

| member | source | states |
|---|---|---|
| PlanTypes.ParseStepType | src/core/plan_types.py:15-21 | `StepType(v)` succeeds exactly on the four values tool_call, sanity_check, model_call and finalization, and returns the member with that value |
| PlanTypes.StepTypeRoundTrip | src/core/plan_types.py:15-21 | every step kind decodes from its own value |
| PlanTypes.ParseComplexity | src/core/plan_types.py:24-29 | succeeds exactly on simple, moderate and complex, returning the member with that value |
| PlanTypes.ParseSafety | src/core/plan_types.py:32-37 | succeeds exactly on normal, high and critical, returning the member with that value |
| PlanTypes.ParseLevel | src/core/plan_types.py:40-56 | confidence and trust levels: succeeds exactly on low, medium and high, returning the member with that value |
| PlanTypes.NewStep | src/core/plan_types.py:65-79 | a step with the given id and kind, no tool or model, empty input and dependencies, required and not skippable |
| PlanTypes.Ids | src/core/plan_types.py:65-79 | the step ids, one per step, in order |
| PlanTypes.IdsConcat | src/core/plan_types.py:65-79 | the ids of two step lists joined are the two id lists joined |
| PlanTypes.NewPlan | src/core/plan_types.py:80-94 | the defaults: version 1.0, source api, complexity simple, priority normal, safety normal, default budget, no capabilities and no steps |
| PlanTypes.StepsToDicts | src/core/plan_types.py:110-124 | one dictionary per step, in the plan's order |
| PlanTypes.PlanToDictSteps | src/core/plan_types.py:95-128 | the plan's dictionary lists the steps in plan order, each keeping its id, kind value, dependencies, required flag and skip flag |
| PlanTypes.ErrorResult | src/core/plan_types.py:203-213 | a result with the given error, no specs, pack or range, no issues and medium confidence throughout |
| PlanTypes.SourcesToDicts | src/core/plan_types.py:233-241 | one dictionary per source, in order |
| PlanTypes.IssuesToDicts | src/core/plan_types.py:218-221 | one dictionary per issue, in order |
| PlanTypes.VerificationToDictKeys | src/core/plan_types.py:215-269 | issues and confidence always come first; verified_specs, pack_calculation and range_estimate appear exactly when set, and error exactly when truthy, in that order |
| PlanTypes.DefaultVerificationDict | src/core/plan_types.py:193-228 | the default result's dictionary: no issues and medium confidence for overall, specs, math and range |
| PlanExecution.CheckCodeExec | src/core/plan_executor.py:331-350 | passes exactly on a canonical input; otherwise the first failing check in order: no language, no mode, a mode other than task or raw_code, task mode without task, raw_code mode without code, each naming the step |
| PlanExecution.FirstInvalidSpec | src/core/plan_executor.py:313-352 | validation passes exactly when every code_exec tool step has a canonical input; a failure is the error of the first code_exec step in declaration order that does not |
| PlanExecution.ResolveValue | src/core/plan_executor.py:258-274 | a `FROM_<id>` string naming a recorded step becomes that result's data, or the whole result when it has none; unknown references and every other value pass through unchanged |
| PlanExecution.ResolvedInputShape | src/core/plan_executor.py:255-276 | every input key is kept, in order, with only its value resolved |
| PlanExecution.PrepareToolInput | src/core/plan_executor.py:243-276 | the loop builds exactly the resolved input |
| PlanExecution.ToolOutcome | src/core/plan_executor.py:155-199 | a missing tool gives failed when the step is required and not skippable, skipped otherwise; an available tool gives success or failed by its outcome, failed on an exception; the status is always one of the three |
| PlanExecution.ExecuteToolStep | src/core/plan_executor.py:143-199 | the tool step's result on its resolved input |
| PlanExecution.OnlySuccessContributes | src/core/plan_executor.py:222-231 | a context step that is unrecorded or not successful contributes no text to the sanity check |
| PlanExecution.CollectResponse | src/core/plan_executor.py:218-233 | the loop builds exactly the sanity check's response text, or raises where collecting it raises |
| PlanExecution.PartsErr | src/core/plan_executor.py:222-231 | once collecting a context step raises, the whole collection raises the same exception |
| PlanExecution.Execute | src/core/plan_executor.py:42-141 | a failing validation returns only the validation error; an empty or unorderable plan returns only the circular-dependency error; otherwise the steps run in a valid dependency order that starts with the dependency-free steps in declaration order |
| PlanExecution.RunLoop | src/core/plan_executor.py:88-136 | the step loop computes exactly the run over the ordered steps |
| PlanExecution.ExecuteStep | src/core/plan_executor.py:91-136 | one step of the loop, by its type |
| PlanExecution.RunStepsErr | src/core/plan_executor.py:88-136 | an exception in one step ends the loop and the whole run raises it |
| PlanExecution.Recorded | src/core/plan_executor.py:91-97 | the steps that record a tool result are exactly the tool and sanity steps |
| PlanExecution.RunStepKeys | src/core/plan_executor.py:91-134 | one step adds its id to the tool results exactly when it is a tool or sanity step |
| PlanExecution.RunStepsLast | src/core/plan_executor.py:88-136 | a successful run is the run of all but the last step, then the last |
| PlanExecution.RecordedIdsLast | src/core/plan_executor.py:91-97 | the recorded ids grow by the last step's id exactly when it records |
| PlanExecution.RunStepsKeys | src/core/plan_executor.py:84-141 | after a successful run the tool results are keyed by exactly the ids of the tool and sanity steps that ran |
| PlanExecution.SanityEscalation | src/core/plan_executor.py:95-119 | after a suspicious sanity check the verification entry is the strong specialist's answer exactly when safety is not normal or severity is high, the weak one's otherwise; no other specialist entry changes |
| PlanExecution.CalmSanityCheck | src/core/plan_executor.py:95-100 | a sanity check that finds nothing suspicious records its result and consults no specialist |
| PlanExecution.ModelCallEscalation | src/core/plan_executor.py:121-134 | a model step's entry is the strong specialist's answer exactly when safety is not normal; the tool results and the sanity result are unchanged, and no other entry changes |
| PlanExecution.FinalizationIdle | src/core/plan_executor.py:88-136 | a finalization step changes nothing |
| PlanExecutor.AddEdges | src/core/plan_executor.py:372-374 | the inner loop appends the step's id to `graph[dep]` for each dependency and raises its in-degree by the number of dependencies |
| PlanExecutor.BuildGraph | src/core/plan_executor.py:364-374 | in-degrees are keyed by exactly the step ids and count the dependencies recorded against each id; `graph[c]` lists the dependents of c |
| PlanExecutor.Release | src/core/plan_executor.py:386-389 | each neighbour's in-degree drops by its number of occurrences, and exactly the neighbours reaching zero are queued, each once |
| PlanExecutor.Drain | src/core/plan_executor.py:377-390 | the queue phase emits distinct ids in queue order, each after its recorded dependencies, starting with the seed queue, and emits every id whose dependencies were all emitted |
| PlanExecutor.DrainedIds | src/core/plan_executor.py:378-383 | the emitted steps have distinct ids drawn from the steps, and at most as many as the steps |
| PlanExecutor.DrainedShort | src/core/plan_executor.py:392-394 | a result shorter than the steps means the ids repeat or no valid order exists |
| PlanExecutor.DrainedPermutation | src/core/plan_executor.py:366-392 | a full result has distinct ids and is a permutation of the steps |
| PlanExecutor.DrainedDepsBefore | src/core/plan_executor.py:380-390 | in a full result every step comes after its dependencies |
| PlanExecutor.DrainedFull | src/core/plan_executor.py:392-396 | a full result is a valid order of steps with distinct ids |
| PlanExecutor.DrainedRoots | src/core/plan_executor.py:377 | the result starts with the dependency-free steps in declaration order |
| PlanExecutor.TopologicalSort | src/core/plan_executor.py:354-396 | None exactly when the ids repeat or no valid order exists (a cycle or a dependency naming no step); otherwise a permutation in which every step follows its dependencies, starting with the dependency-free steps in declaration order |
| PlanOrder.Outside | src/core/plan_executor.py:374-387 | the count of dependencies still outstanding is zero exactly when all are finished |
| PlanOrder.StepMap | src/core/plan_executor.py:366 | the step map is keyed by exactly the ids, each holding a step with that id |
| PlanOrder.KeyOrder | src/core/plan_executor.py:366-377 | the map's keys are the distinct ids in first-insertion order, the ids themselves when distinct |
| PlanOrder.Roots | src/core/plan_executor.py:377 | the steps with no dependencies, in declaration order |
| PlanOrder.Ready | src/core/plan_executor.py:377 | the initial queue holds exactly the keys of in-degree zero, without repeats |
| PlanOrder.DependentsCount | src/core/plan_executor.py:372-373 | x appears in `graph[c]` as often as c appears among the dependencies recorded against x |
| PlanOrder.DependentsAreIds | src/core/plan_executor.py:373 | everything in `graph[c]` is a step's id |
| PlanOrder.DepsInEdges | src/core/plan_executor.py:372-374 | a step's own dependencies are among those recorded against its id |
| PlanOrder.UniqueIdEdges | src/core/plan_executor.py:366-374 | with distinct ids a step is the only one recorded under its id and the one the map holds |
| PlanOrder.MissingIdEdges | src/core/plan_executor.py:372-374 | nothing is recorded against an id that no step has |
| PlanOrder.ReadyRoots | src/core/plan_executor.py:377 | with in-degrees equal to the dependency counts, the initial queue lists the roots' ids |
| PlanOrder.NextDone | src/core/plan_executor.py:380-389 | the next step of a valid order has all its dependencies finished once its predecessors are |
| PlanOrder.ClosedSetHoldsAll | src/core/plan_executor.py:380-394 | when a valid order exists, any set of ids closed under "all dependencies finished" holds every step's id |
| PlanOrder.EmittedPermutation | src/core/plan_executor.py:383-396 | steps looked up under distinct ids covering every id are a permutation of the steps |
| PlanOrder.EmittedDepsBefore | src/core/plan_executor.py:383-389 | steps emitted after their recorded dependencies have their dependencies first |
| PlanOrder.EmittedRoots | src/core/plan_executor.py:377-383 | the steps emitted straight from the initial queue are the roots in declaration order |
| Seqs.LastN | src/lib/metrics.py:40-61 | the newest min(n, length) entries, as a suffix: what `deque(maxlen=n)` keeps and what `xs[-n:]` gives for positive n (src/core/plan_analyzer.py:286, src/feedback/rage_trainer.py:97) |
| PlanAnalyzer.HistoryLine | src/core/plan_analyzer.py:287-289 | one role-and-content line; None exactly where Python raises: a message that is not a dict, or a content that cannot be sliced |
| PlanAnalyzer.HistoryLines | src/core/plan_analyzer.py:286-289 | all the lines, one per message in order, exactly when no message raises |
| PlanAnalyzer.UserContentHistory | src/core/plan_analyzer.py:280-291 | only the last three history entries are read; building the prompt raises exactly when one of them does; otherwise the heading, their lines and the current query |
| PlanAnalyzer.HistoryLineText | src/core/plan_analyzer.py:287-289 | a string content is cut to at most 200 characters after the role |
| PlanAnalyzer.OlderEntriesIgnored | src/core/plan_analyzer.py:286 | entries older than the last three, malformed or not, do not change the prompt |
| PlanAnalyzer.NoHistoryContent | src/core/plan_analyzer.py:280-281 | without history the prompt is the query itself |
| PlanAnalyzer.StrArray | src/core/plan_analyzer.py:410-423 | a list of strings decodes only from an array of exactly those strings |
| PlanAnalyzer.StrField | src/core/plan_analyzer.py:404-420 | a missing key gives the default; a present key decodes exactly when it holds a string, and to that string |
| PlanAnalyzer.OptStrField | src/core/plan_analyzer.py:406-407 | None exactly when the key is missing or null; a string exactly when the key holds one |
| PlanAnalyzer.StrListField | src/core/plan_analyzer.py:410-423 | a missing key gives the empty list |
| PlanAnalyzer.FlagField | src/core/plan_analyzer.py:411-412 | a missing key gives the default; a present one its truth value |
| PlanAnalyzer.StepTypeOf | src/core/plan_analyzer.py:398-401 | the step kind named by the entry; tool_call when the key is missing or its value is not a kind |
| PlanAnalyzer.DictToStepDefaults | src/core/plan_analyzer.py:397-414 | a decoded step keeps its kind rule; missing id is `step_<index>`; required defaults to true and skippable to false; missing input, dependencies, description, tool and model take their defaults |
| PlanAnalyzer.MinimalStepDict | src/core/plan_analyzer.py:403-413 | an entry with only id and kind decodes to the step with every other default |
| PlanAnalyzer.DecodeSteps | src/core/plan_analyzer.py:396-414 | each entry decoded with its own position as default id |
| PlanAnalyzer.CollectEach | src/core/plan_analyzer.py:396-414 | the step loop succeeds exactly when every entry does, and then keeps every step in order |
| PlanAnalyzer.DictToPlan | src/core/plan_analyzer.py:370-425 | complexity MODERATE and safety NORMAL when missing or invalid; intent "unknown", no steps and no capabilities when missing; id, query and source passed through; version, priority and budget at their defaults |
| PlanAnalyzer.DictToPlanSteps | src/core/plan_analyzer.py:396-414 | the plan holds one step per entry, each the decoding of the entry at that position |
| PlanAnalyzer.FallbackCodeStep | src/core/plan_analyzer.py:449-467 | the step code_exec_1, a tool call of code_exec |
| PlanAnalyzer.FallbackSearchStep | src/core/plan_analyzer.py:470-483 | the step web_search_<counter>, a tool call of web_search |
| PlanAnalyzer.FinalizeStep | src/core/plan_analyzer.py:485-497 | the step finalize, a finalization that depends on the ids of all the steps before it |
| PlanAnalyzer.FallbackPlan | src/core/plan_analyzer.py:427-510 | intent answer_query, complexity simple, safety normal, the detected capabilities, version and priority at their defaults |
| PlanAnalyzer.FallbackEndsInFinalize | src/core/plan_analyzer.py:485-497 | the fallback plan always ends in finalize, a finalization step depending on every step before it, in order |
| PlanAnalyzer.FallbackToolSteps | src/core/plan_analyzer.py:444-483 | code_exec_1 exactly when code execution was detected; a web search exactly when it was detected, after it, numbered 2 after code_exec_1 and 1 otherwise |
| PlanAnalyzer.FallbackIdsDistinct | src/core/plan_analyzer.py:444-497 | the fallback plan's step ids are distinct |
| PlanAnalyzer.PlanFromReply | src/core/plan_analyzer.py:309-316 | a plan from the reply only when the layered parse gives a non-empty dict that converts without raising |
| PlanAnalyzer.Analyze | src/core/plan_analyzer.py:266-328 | raises only where the prompt cannot be built; otherwise the decoded plan when there is one, and the fallback plan when the call raised, the reply did not decode to a non-empty dict, or the conversion raised |
| PlanAnalyzer.UnparseableReplyFallsBack | src/core/plan_analyzer.py:309-313 | a reply with no decodable JSON always yields the fallback plan, which ends in finalize |
| PlanAnalyzer.WellFormedReplyDecoded | src/core/plan_analyzer.py:339-343 | a reply that is well-formed JSON is decoded directly, no other strategy tried |
| CostTracker.CalculateCost | src/core/cost_tracker.py:52-72 | non-negative counts and rates give a non-negative cost |
| CostTracker.CalculateCostLinear | src/core/cost_tracker.py:70-72 | the cost is additive: two queries cost what their combined token counts cost |
| CostTracker.SessionRecords | src/core/cost_tracker.py:244 | exactly the records of the session, never more than all records |
| CostTracker.SumIndicator | src/core/cost_tracker.py:102-108 | one more record adds its cost to its own session's sum only, and to the sum over sessions when its session is listed |
| CostTracker.TotalIsSumOfSessions | src/core/cost_tracker.py:103-108 | the total of all records equals the sum of the per-session totals, over any repetition-free list of the sessions |
| CostTracker.ZeroSessions | src/core/cost_tracker.py:47-49 | with no records every session sum is zero |
| CostTracker.TrackPreserves | src/core/cost_tracker.py:102-108 | recording a query keeps the total, the per-session map and the records consistent with each other |
| CostTracker.Tracker.constructor | src/core/cost_tracker.py:36-50 | a new tracker holds the limit and threshold, nothing spent, no records, override off, and for positive limits neither cap is reached |
| CostTracker.Tracker.SessionCostIsSum | src/core/cost_tracker.py:116-125 | a session's cost is the sum of its records' costs, zero for an unknown session |
| CostTracker.Tracker.TrackQuery | src/core/cost_tracker.py:74-114 | one more record at the end; the total and that session's cost grow by the cost; every other session's cost and the limits are unchanged; the totals stay consistent |
| CostTracker.Tracker.HardCapImpliesSoftCap | src/core/cost_tracker.py:135-166 | with a threshold of at most 1 and a non-negative limit, reaching the hard cap means the soft cap is reached too |
| CostTracker.Tracker.CanProceed | src/core/cost_tracker.py:168-207 | refused iff the projected session cost reaches the limit and the query is not a critical one under the override; "manual_override", "soft_cap_warning" and "ok" each hold exactly in their own band |
| CostTracker.Tracker.RefusalNeedsLimit | src/core/cost_tracker.py:184-196 | a session below its hard cap is never refused a query with no estimated cost |
| CostTracker.Tracker.EnableManualOverride | src/core/cost_tracker.py:209-216 | the override flag takes the given value; nothing else changes |
| CostTracker.Tracker.RemainingBudget | src/core/cost_tracker.py:218-232 | never negative; zero exactly when the hard cap is reached; otherwise it and the cost spent add up to the limit |
| CostTracker.Tracker.Summary | src/core/cost_tracker.py:234-258 | the query count is the session's records (all records for None or ""), and the other fields are the cost, limit, remaining budget, both caps and the override |
| CostTracker.Tracker.TotalEqualsSessionTotals | src/core/cost_tracker.py:103-108 | the tracked total equals the sum of the session totals, listed in any order without repetition |
| CostTracker.NoRecordsNoCost | src/core/cost_tracker.py:125 | a session with no records has spent nothing |
| CostTracker.RecordSnoc | src/core/cost_tracker.py:102-108 | one more record moves the total, the session set and each session's sum by that record alone |
| CostTracker.SessionsMatch | src/core/cost_tracker.py:106-108 | a map holding every session's record sum sums to the sum over those sessions |
| GranitePresenter.Numbered | src/core/presenters/granite_presenter.py:199-220 | the entries, one citation each, numbered consecutively from the running id |
| GranitePresenter.NumberedAppend | src/core/presenters/granite_presenter.py:191-220 | numbering a concatenation continues where the first part stopped |
| GranitePresenter.CitationEntries | src/core/presenters/granite_presenter.py:198-205 | one entry per citation, label and url read with their defaults; raises on a citation that is not a dict |
| GranitePresenter.ResultEntries | src/core/presenters/granite_presenter.py:195-198 | a result that did not succeed contributes no citation |
| GranitePresenter.CitationMap | src/core/presenters/granite_presenter.py:176-222 | the map raises exactly when reading the tool citations raises; otherwise the ids are 1, 2, 3 and so on in order |
| GranitePresenter.AppendNumbered | src/core/presenters/granite_presenter.py:198-206 | the inner loop appends the entries numbered from the running id and advances it by their number |
| GranitePresenter.BuildCitationMap | src/core/presenters/granite_presenter.py:176-222 | the two loops compute exactly the citation map |
| GranitePresenter.CitationStep | src/core/presenters/granite_presenter.py:194-206 | one more result extends both the entries and their numbering |
| GranitePresenter.CitationMapParts | src/core/presenters/granite_presenter.py:190-222 | the map is the numbered tool citations followed by the verification sources numbered after them |
| GranitePresenter.ToolEntriesFailurePersists | src/core/presenters/granite_presenter.py:194-206 | once reading a result's citations raises, the whole map raises the same way |
| GranitePresenter.Successful | src/core/presenters/granite_presenter.py:195 | the successful results, in order, at most all of them |
| GranitePresenter.OnlySuccessfulCite | src/core/presenters/granite_presenter.py:195 | only successful results contribute citations |
| GranitePresenter.SourcesFollowTools | src/core/presenters/granite_presenter.py:209-220 | the k-th verification source is cited right after the tool citations, with its label and url and id tools + k + 1 |
| GranitePresenter.StdoutPart | src/core/presenters/granite_presenter.py:284-287 | a result adds its stdout only when successful, at most one part |
| GranitePresenter.StdoutParts | src/core/presenters/granite_presenter.py:283-287 | at most one part per result |
| GranitePresenter.VerificationNote | src/core/presenters/granite_presenter.py:290-295 | at most one note, from the verifier's error |
| GranitePresenter.FallbackParts | src/core/presenters/granite_presenter.py:280-295 | the parts are built exactly when neither the stdout parts nor the note raise |
| GranitePresenter.FallbackOutput | src/core/presenters/granite_presenter.py:263-316 | the parts joined by a blank line with the success summary, or the fixed apology with the failure summary when there are none; never a citation; flagged as fallback with the tool count |
| GranitePresenter.CollectFallbackParts | src/core/presenters/granite_presenter.py:280-295 | the loops compute exactly the fallback parts |
| GranitePresenter.StdoutFailurePersists | src/core/presenters/granite_presenter.py:283-287 | once reading a result's stdout raises, the whole fallback raises the same way |
| GranitePresenter.NoSuccessApologises | src/core/presenters/granite_presenter.py:297-316 | with no successful result and no verification the answer is the apology |
| GranitePresenter.NoSuccessNoStdout | src/core/presenters/granite_presenter.py:283-287 | with no successful result there is no stdout part |
| GranitePresenter.ParsedOutput | src/core/presenters/granite_presenter.py:161-170 | missing answer, summary and citations default to "", "" and []; the debug info lists the tools used and the citation count |
| GranitePresenter.Finalize | src/core/presenters/granite_presenter.py:87-174 | raises only when building the citation map raises, outside the try, or when the fallback itself raises |
| GranitePresenter.FinalizeUsesReply | src/core/presenters/granite_presenter.py:141-174 | a reply decoding to a non-empty dict is used; a failed call, an undecodable reply or an empty or non-dict one gives the fallback output |
| GranitePresenter.FailedCallCitesNothing | src/core/presenters/granite_presenter.py:172-311 | when the call fails the answer cites nothing |
| Verification.DecodeSource | src/core/specialists/verification.py:247-258 | an invalid or missing trust level is MEDIUM; missing label and url are "", a missing type "other" |
| Verification.DecodeSourceList | src/core/specialists/verification.py:247-258 | one source per entry, in order |
| Verification.DecodeSpecs | src/core/specialists/verification.py:244-266 | decodes only a dict; missing voltage and capacity are 0, missing sources empty |
| Verification.RealField | src/core/specialists/verification.py:262-287 | `float(get(key, 0))`: a missing key gives 0 |
| Verification.IntField | src/core/specialists/verification.py:272-273 | `int(get(key, 0))`: a missing key gives 0 |
| Verification.DecodePack | src/core/specialists/verification.py:269-278 | decodes only a dict |
| Verification.EmptyPackIsZero | src/core/specialists/verification.py:269-278 | an empty pack calculation decodes to all zeros |
| Verification.DecodeRange | src/core/specialists/verification.py:281-288 | decodes only a dict |
| Verification.EmptyRangeIsZero | src/core/specialists/verification.py:281-288 | an empty range estimate decodes to all zeros |
| Verification.DecodeIssue | src/core/specialists/verification.py:292-296 | severity defaults to "info", field and problem to "" |
| Verification.DecodeIssueList | src/core/specialists/verification.py:291-296 | one issue per entry, in order |
| Verification.DecodeConfidence | src/core/specialists/verification.py:299-314 | decodes exactly a dict; when any of the four aspects is invalid all four are MEDIUM, otherwise each is its own value |
| Verification.Optional | src/core/specialists/verification.py:244-281 | a part is decoded only when its key is present, and then raises exactly when decoding it does |
| Verification.DictToVerification | src/core/specialists/verification.py:232-316 | no error; specs, pack and range present exactly when their keys are; without a confidence entry everything is MEDIUM; without issues none |
| Verification.VerificationIssues | src/core/specialists/verification.py:291-296 | the result's issues are the decoded entries of the issues list |
| Verification.IssueOrderPreserved | src/core/specialists/verification.py:291-296 | the issues keep the specialist's order |
| Verification.ResultsJson | src/core/specialists/verification.py:140 | the tool results as JSON values, one per entry, in order |
| Verification.FromReply | src/core/specialists/verification.py:167-184 | no decodable dict gives the parse_error result; a reply with an error entry gives exactly that error |
| Verification.Verify | src/core/specialists/verification.py:98-194 | the strong connector exactly when asked; without one a no_connector error and no call; an exception from the call becomes an exception error with its text; otherwise the decoded reply |
| Verification.FromReplyErrors | src/core/specialists/verification.py:166-184 | every error is a parse_error or exception tagged by the verifier, or the reply's own error entry |
| Verification.FreeTextIsParseError | src/core/specialists/verification.py:166-177 | free text with no JSON object is a parse_error result with no specs, pack, range or issues |
| JsonExtract.CloseFence | src/core/plan_analyzer.py:348 | the lazy `.*?\}`: a closing brace at or after the start that a closing fence follows |
| JsonExtract.OpenBrace | src/core/plan_analyzer.py:348 | where the opening brace sits after the fence, an optional json and whitespace |
| JsonExtract.LeftmostFence | src/core/plan_analyzer.py:348-349 | a position at or after the start where a fence match begins |
| JsonExtract.FenceAtShape | src/core/plan_analyzer.py:348 | a match's group is a slice of the text starting with '{' after the opening fence and ending with '}', followed by whitespace and a closing fence |
| JsonExtract.BraceSpanShape | src/core/plan_analyzer.py:357-363 | the span is the text from its first '{' through its last '}' |
| JsonExtract.ParseLayeredWholeText | src/core/plan_analyzer.py:339-343 | well-formed JSON is decoded as it is; the later strategies never run |
| JsonExtract.LayeredSlice | src/core/plan_analyzer.py:330-368 | the slice the layered parser decodes lies inside the text |
| JsonExtract.FencedSlice | src/core/plan_analyzer.py:348-353 | the first fenced group is the slice at its opening brace |
| JsonExtract.FencedBranch | src/core/plan_analyzer.py:351-353 | when the whole text fails and the fenced group parses, the result is that group's decoding |
| JsonExtract.SpanBranch | src/core/plan_analyzer.py:357-363 | when the first two fail and the brace span parses, the result is the span's decoding |
| JsonExtract.ParseLayeredSlice | src/core/plan_analyzer.py:330-368 | whatever the layered parser returns is the decoding of a slice of the text |
| JsonExtract.CloseFenceFirst | src/core/plan_analyzer.py:348 | the closing brace found is the first one a closing fence follows, and none exists when none is found |
| JsonExtract.LeftmostFenceFirst | src/core/plan_analyzer.py:348-349 | no match starts before the position reported, nor anywhere when none is reported |
| JsonExtract.FirstFenceLeftmost | src/core/plan_analyzer.py:349-353 | `matches[0]` exists exactly when some position starts a match, and is the group of the leftmost one |
| JsonExtract.LazyFenceExample | src/core/plan_analyzer.py:348 | the lazy group stops at the first brace a closing fence follows |
| SanityChecker.FlagIff | src/core/sanity_checker.py:17-177 | a matched value raises an issue exactly when it lies outside the physical limits of its check (above the max, or below the min for 21700 cells only) |
| SanityChecker.Flagged | src/core/sanity_checker.py:90-105 | at most one issue per match of the pattern |
| SanityChecker.FlaggedAppend | src/core/sanity_checker.py:90-105 | matches contribute their issues independently and in match order |
| SanityChecker.FlaggedEmpty | src/core/sanity_checker.py:90-105 | no issue is reported exactly when no match raises one |
| SanityChecker.FlaggedMembers | src/core/sanity_checker.py:90-105 | every issue comes from some match, and every issue a match raises is reported |
| SanityChecker.CollectIssues | src/core/sanity_checker.py:90-177 | the loop over the matches collects exactly the issues of the matches, in order |
| SanityChecker.CheckBatteryCells | src/core/sanity_checker.py:80-123 | the 21700 issues when the query or response names a 21700 cell, then the 18650 issues when it names an 18650 cell |
| SanityChecker.CheckRangeValues | src/core/sanity_checker.py:125-156 | range issues only in an e-bike or scooter context, judged against the e-bike limits when the query names an e-bike |
| SanityChecker.CheckEnergyValues | src/core/sanity_checker.py:158-179 | one issue per Wh figure above the consumer limit, separators removed |
| SanityChecker.Severity | src/core/sanity_checker.py:57-72 | the severity is one of none, medium and high |
| SanityChecker.SeverityRules | src/core/sanity_checker.py:57-72 | none exactly when there is no issue; high exactly when some issue mentions an unrealistic cell or range, or there are several; medium exactly for one other issue |
| SanityChecker.Report | src/core/sanity_checker.py:74-78 | the report carries the issues and is suspicious exactly when there is one |
| SanityChecker.CheckResponse | src/core/sanity_checker.py:30-78 | the cell, range and energy issues in that order, and the report built from them |
| SanityChecker.EscalateIff | src/core/sanity_checker.py:181-190 | a report escalates exactly when one issue is high by itself or there are several issues |
| SanityChecker.UnrealisticCellIsHigh | src/core/sanity_checker.py:61-99 | an over-capacity 21700 message is high severity by itself |
| SanityChecker.UnrealisticRangeIsHigh | src/core/sanity_checker.py:64-153 | an over-limit range message is high severity by itself |
| SanityChecker.EbikeLimitsWin | src/core/sanity_checker.py:130-146 | when the query names both an e-bike and a scooter, the e-bike limits are used |
| SanityChecker.NoVehicleNoRangeIssues | src/core/sanity_checker.py:130-156 | without an e-bike or scooter in the query no range claim is questioned |
| SanityChecker.OverCapacityEscalates | src/core/sanity_checker.py:85-190 | one over-capacity claim about a 21700 cell is enough to escalate |
| SanityChecker.TwentyFiveAhEscalates | src/core/sanity_checker.py:85-190 | a 25Ah claim in answer to a question about a 21700 cell escalates |
| SanityChecker.SeparatedEnergyValue | src/core/sanity_checker.py:163-168 | a thousands separator in a Wh figure is ignored when reading its value |
| SanityChecker.SeparatedEnergyFlagged | src/core/sanity_checker.py:163-177 | a separated Wh figure above 10000 makes the response suspicious |
| SanityChecker.ExecutorAgrees | src/core/sanity_checker.py:74-190 | the executor's reading of the report dict agrees with the report: it verifies exactly suspicious reports and escalates to the strong model exactly when should_escalate holds |
| Sentiment.ScoreEmotion | src/tools/sentiment_analyzer.py:191-202 | positive exactly at compound >= 0.5, frustrated at <= -0.5, distressed for a mild negative with neg > 0.3, neutral otherwise, never excited |
| Sentiment.ClassifyEmotion | src/tools/sentiment_analyzer.py:115-202 | distress keywords win, then frustration, then excitement keywords, then the scores; excited only from a keyword |
| Sentiment.Abs | src/tools/sentiment_analyzer.py:79 | the absolute value is non-negative and equal to x or -x |
| Sentiment.Confidence | src/tools/sentiment_analyzer.py:79 | the confidence is the largest of the three absolute scores |
| Sentiment.Analyze | src/tools/sentiment_analyzer.py:75-88 | the emotion, confidence and scores of the text, and exactly one polarity flag, negative below -0.05 and positive above 0.05 |
| Sentiment.EmotionAgreesWithPolarity | src/tools/sentiment_analyzer.py:85-202 | without keywords the emotion agrees with the polarity flags, except at a compound of exactly -0.05, which is flagged neutral yet can read as distressed |
| Sentiment.CountPresent | src/tools/sentiment_analyzer.py:219-220 | the count is at most the number of words and zero exactly when none occurs |
| Sentiment.MockSentiment | src/tools/sentiment_analyzer.py:204-234 | the three shares lie in [0, 1] and add up to one, compound is pos - neg, neutral exactly when no listed word occurs and positive exactly when more positive words occur |
| Sentiment.ShareSum | src/tools/sentiment_analyzer.py:222-225 | the two shares add up to the share of their sum, which is one when any word matched |
| Sentiment.MockConfidence | src/tools/sentiment_analyzer.py:204-234 | the keyword-count analyser's confidence is at least one half |
| Sentiment.EmptyTextData | src/tools/sentiment_analyzer.py:57-64 | the empty-text dict is neutral with zero confidence and a text_length where an analysis has is_neutral |
| Sentiment.Execute | src/tools/sentiment_analyzer.py:36-113 | a falsy text is neutral without analysis; a non-string text fails; any other text is scored by VADER when present, else by the keyword counts; every result reports the elapsed milliseconds the caller measured |
| Sentiment.EmptyTextOnly | src/tools/sentiment_analyzer.py:48-66 | for a string text only the empty one skips the analysis |
| Sentiment.Fallback | src/tools/sentiment_analyzer.py:236-261 | the fallback succeeds with a neutral analysis and is marked as a fallback |
| Sentiment.FallbackAnalysis | src/tools/sentiment_analyzer.py:251-258 | the fallback analysis is neutral with half confidence and agrees with the score rules |
| QueryAnalyzer.CountIn | src/core/query_analyzer.py:399-418 | the count of listed keywords occurring in the text: at most the list's length, and positive exactly when one occurs |
| QueryAnalyzer.Capabilities | src/core/query_analyzer.py:214-331 | web_search, code_exec and rag, each present exactly when its detector fires, each at most once and in that order |
| QueryAnalyzer.ComplexityRules | src/core/query_analyzer.py:333-360 | complex exactly on code execution, three or more capabilities or a complex keyword; simple exactly when none of those, no capability and at most 20 words; moderate otherwise |
| QueryAnalyzer.CappedBonus | src/core/query_analyzer.py:411-419 | min(count * per, cap): between 0 and the cap, and one of the two |
| QueryAnalyzer.RawScoreNonNegative | src/core/query_analyzer.py:393-431 | the raw score is at least 0.15 per capability, since every term is non-negative, so only the upper clamp can take effect |
| QueryAnalyzer.ComplexityScore | src/core/query_analyzer.py:383-434 | the score lies in [0, 1] and is the raw score clamped at 1 |
| QueryAnalyzer.ScoreMonotoneInCapabilities | src/core/query_analyzer.py:396 | more capabilities never lower the score |
| QueryAnalyzer.QuietQueryScoresZero | src/core/query_analyzer.py:393-434 | a query with no capability, no scored keyword, at most 30 words and at most one '?' scores 0 |
| QueryAnalyzer.DetermineRouting | src/core/query_analyzer.py:362-381 | the hint is local exactly when the score is below 0.3 |
| QueryAnalyzer.TopicShift | src/core/query_analyzer.py:106-153 | no shift without an embedding or a previous topic; a shift only when the cosine similarity is below the threshold |
| QueryAnalyzer.Analyze | src/core/query_analyzer.py:193-245 | the analysis of the lower-cased query: its capabilities, level, clamped score, local routing exactly below 0.3, the multi-hop flag and confidence 0.85 |
| QueryAnalyzer.AnalyzeCaseBlind | src/core/query_analyzer.py:207 | analysing the lower-cased query gives the same analysis |
| QueryAnalyzer.CodeExecIsComplex | src/core/query_analyzer.py:220-345 | a query needing code execution is always complex |
| Orchestrator.CriticalCascade | src/core/orchestrator.py:527-547 | after Opus is refused: Sonnet, then Grok Fast, each a configured model the tracker approves as critical; local exactly when neither is |
| Orchestrator.MakeRoutingDecision | src/core/orchestrator.py:384-569 | a known model id; an external id is configured and approved by the cost tracker at its estimate; local at the hard cap and whenever the local-first rules hold |
| Orchestrator.NoExternalsStaysLocal | src/core/orchestrator.py:469-569 | with no external connector configured every query routes to local |
| Orchestrator.DefaultSpecAlwaysLocal | src/core/orchestrator.py:429-454 | a granite spec with the default ranges sends every score from 0 to 1 to local |
| Orchestrator.SpeclessLowScoreLocal | src/core/orchestrator.py:455-465 | without a spec, every score below 0.5 routes to local |
| Orchestrator.ModerateQueryGrokOrLocal | src/core/orchestrator.py:469-480 | a score below 0.7 with Grok Fast configured routes to Grok Fast exactly when the tracker approves 0.001, and otherwise to local, never to Sonnet |
| Orchestrator.ComplexQueryPrefersSonnet | src/core/orchestrator.py:486-494 | a score in [0.7, 0.85) with Sonnet configured and approved routes to Sonnet |
| Orchestrator.CriticalQueryGetsOpus | src/core/orchestrator.py:519-526 | a score of 0.85 or more with Opus configured and approved as critical routes to Opus |
| Orchestrator.SelectConnector | src/core/orchestrator.py:571-590 | the external connector exactly for "external_opus" with Opus configured, and then Opus's |
| Orchestrator.ToolParameters | src/core/orchestrator.py:300-351 | web search gets the raw query; code execution is skipped unless the generator recognises the query and produces non-empty code, which is then passed with auto_generated |
| Orchestrator.Outcome | src/core/orchestrator.py:282-380 | a capability adds at most one record, and a capability without a tool adds exactly the "not available" failure record |
| Orchestrator.Invocations | src/core/orchestrator.py:280-382 | at most one record per required capability |
| Orchestrator.ExecuteTools | src/core/orchestrator.py:271-382 | the loop returns the records of the capabilities in order, or the first exception a tool raises |
| Orchestrator.InvocationsSnoc | src/core/orchestrator.py:282-380 | one more capability appends its outcome, or ends the pass with its exception |
| Orchestrator.InvocationsFailurePersists | src/core/orchestrator.py:356 | once a tool raises, the whole pass raises with that exception |
| Orchestrator.InvocationsWellFormed | src/core/orchestrator.py:286-379 | every record names a required capability; failure records from missing tools have no parameters and the fixed error; tool records carry the tool's outcome |
| Orchestrator.UnavailableRecorded | src/core/orchestrator.py:283-296 | a capability without a tool is recorded as failed with the "not available" error |
| Orchestrator.CodeExecWithoutGenerationSkipped | src/core/orchestrator.py:330-349 | code execution for a query the generator does not recognise adds no record |
| Orchestrator.CitationText | src/core/orchestrator.py:656-661 | a citation's text starts with its number, a dot and a space |
| Orchestrator.CitationLines | src/core/orchestrator.py:656-661 | at most the first three citations, numbered from 1 in order |
| Orchestrator.WebSearchLines | src/core/orchestrator.py:653-661 | the heading followed by one to three citation lines, or the AttributeError or TypeError Python raises |
| Orchestrator.WebSearchCitations | src/core/orchestrator.py:654-661 | by the kind of the citations value: empty list or string gives the heading alone; a non-empty string raises AttributeError; a non-sequence raises TypeError; a list of dicts gives one line per citation up to three |
| Orchestrator.InvocationLines | src/core/orchestrator.py:651-663 | an invocation that did not succeed adds no line |
| Orchestrator.FormatToolResults | src/core/orchestrator.py:640-665 | the loop raises exactly when formatting an invocation raises; otherwise the lines joined by newlines |
| Orchestrator.FailurePersists | src/core/orchestrator.py:651-663 | once a prefix of the invocations raises, the whole formatting raises |
| Orchestrator.NoSuccessNoLines | src/core/orchestrator.py:651-652 | without a successful invocation no line is formatted |
| Orchestrator.Preamble | src/core/orchestrator.py:605-632 | the messages open with the fixed system prompt |
| Orchestrator.PrepareMessages | src/core/orchestrator.py:592-638 | raises exactly when there are invocations and formatting them raises; otherwise the prompt built from the context and the formatted tool text, none without invocations |
| Orchestrator.PromptShape | src/core/orchestrator.py:605-638 | the prompt opens with the system prompt, keeps the context in order right after it, ends with the query text, and adds at most three messages |
| Orchestrator.QueryAddedUnlessRepeated | src/core/orchestrator.py:635-636 | the query is appended as a user message exactly when the last message differs from it |
| Orchestrator.DetectModeOverride | src/core/orchestrator.py:703-744 | concise exactly on a concise phrase; expert on an expert phrase without a concise one; advisor on an advisor phrase without either; None when there is no phrase |
| Orchestrator.ModeOverrideIgnoresCase | src/core/orchestrator.py:712 | the override is the same for a query and its lower-cased form |
| ModelRouter.TierInfo | src/core/model_router.py:50-71 | exactly grok_fast, sonnet and opus have an external row (model name and a positive cost); local_fast and unknown tiers have none |
| ModelRouter.ContainerOf | src/core/model_router.py:126-156 | which analysis values Python's `in` can search: None, numbers and booleans cannot, and every other JSON value can |
| ModelRouter.InputOf | src/core/model_router.py:112-116 | reading never fails; with no analysis fields, the defaults 0.5, "moderate", empty tags, empty capabilities and no multi-hop; the score is marked incomparable exactly when it is present and neither a number nor a bool |
| ModelRouter.CheckCostStatus | src/core/model_router.py:250-266 | hard cap exactly at 100 % of the cap, soft cap and force-local exactly at the soft threshold, percentage 0 when the cap is not positive |
| ModelRouter.LocalDecision | src/core/model_router.py:196-205 | the local tier, the local connector, zero cost, and the reasoning given |
| ModelRouter.FindConnector | src/core/model_router.py:227-231 | a connector key that names the model (whole name or its last path segment), and None exactly when no key does |
| ModelRouter.FindConnectorFirst | src/core/model_router.py:228-231 | the key found is the first in dict order that names the model |
| ModelRouter.FindConnectorScan | src/core/model_router.py:227-231 | the loop with `break` returns the first matching key, the same as FindConnector |
| ModelRouter.ExternalDecision | src/core/model_router.py:207-248 | the tier itself exactly when the tier is known and a connector names its model; then that connector, the tier's cost and model name; otherwise the local fallback |
| ModelRouter.Decide | src/core/model_router.py:97-194 | one of the four tiers, and local_fast whenever the caller forces local or the spend reaches the soft cap |
| ModelRouter.Route | src/core/model_router.py:73-194 | Err("TypeError") exactly when an `in` test meets an unsearchable value or a comparison that is reached meets an incomparable score; otherwise one of the four tiers; local whenever forced or over the soft cap |
| ModelRouter.UnsearchableTagsRaise | src/core/model_router.py:126-136 | past the cap gate, intent tags that are None, a number or a boolean make route raise |
| ModelRouter.TextScoreForcedLocal | src/core/model_router.py:112-121 | `{"complexity_score": "high"}` with force_local gives the forced local decision: the score is never compared |
| ModelRouter.IncomparableScore | src/core/model_router.py:138-189 | past the gate, an incomparable score raises when no heavy tag is present, and routes without raising when a planning or deep-reasoning tag decides and no quick-search rule reads it |
| ModelRouter.TagsAsText | src/core/model_router.py:126-136 | intent tags given as a string are searched as text: a tag is present exactly when it occurs in the string |
| ModelRouter.RouteDecisionShape | src/core/model_router.py:196-248 | every decision is well formed: local is free on the local connector; external costs its tier's price on a connector whose key names the tier's model |
| ModelRouter.ExternalShape | src/core/model_router.py:207-248 | every external decision, fallback included, is well formed |
| ModelRouter.LadderShape | src/core/model_router.py:161-194 | every decision of the tier ladder is well formed |
| ModelRouter.LightQueryStaysLocal | src/core/model_router.py:125-141 | no heavy intent tag and a score below 0.6 always routes to local_fast |
| ModelRouter.CodeExecStaysLocal | src/core/model_router.py:149-153 | code execution without multi-hop routes to local_fast, with the first local rule's reasoning |
| ModelRouter.PlanningGoesToGrok | src/core/model_router.py:161-167 | past the local rules, a planning, strategy or thinking tag routes to grok_fast when a Grok connector exists |
| ModelRouter.NoConnectorFallsBack | src/core/model_router.py:233-239 | with no connector naming the tier's model the decision is local, with "External model unavailable: " before the reasoning |
| ModelRouter.OpusOnlyWhenCritical | src/core/model_router.py:177-189 | as written, an Opus decision implies the critical tag: a score of 0.9 or more was already sent to Sonnet by the 0.75 rule |
| ModelRouter.VeryComplexGoesToSonnet | src/core/model_router.py:177-189 | concrete counterexample to the routing table's "very complex goes to Opus": score 0.95 with no tags routes to Sonnet |
| ModelRouter.RouteOpusFirst | src/core/model_router.py:87-189 | the corrected ladder with the Opus rule before the 0.75 Sonnet rule: raises exactly when route does, one of the four tiers, local when forced or over the soft cap |
| ModelRouter.VeryComplexGoesToOpus | src/core/model_router.py:87-189 | with the corrected ladder, a score of at least 0.9 with no planning or deep-reasoning tag routes to Opus when an Opus connector exists |
| ModelRouter.LaddersAgreeBelowThreshold | src/core/model_router.py:177-189 | the corrected ladder and route agree on every input whose score is not 0.75 or more, incomparable scores included |
| ResponseModel.SplitStep | src/models/response.py:116 | `split(". ")`: the piece before the first break, then the split of the rest |
| ResponseModel.ConciseCutsAtSecondBreak | src/models/response.py:109-119 | a text with two or more ". " breaks is cut just before the second and closed with "."; a text with fewer is returned unchanged |
| ResponseModel.FindFromShift | src/models/response.py:116-118 | searching from a position is searching the suffix, the index shifted |
| ResponseModel.FirstPrefix | src/models/response.py:137-141 | the first transition word, in alternation order, that the text starts with; None exactly when it starts with none |
| ResponseModel.DigitRun | src/models/response.py:144 | the run of digits at the start of the text: all digits, and followed by a non-digit when shorter than the text |
| ResponseModel.SpaceRun | src/models/response.py:144 | the run of whitespace at the start, maximal in the same sense |
| ResponseModel.ExpertLeavesShortText | src/models/response.py:129-148 | text with a line break, or of at most 200 characters, is not restructured |
| ResponseModel.NoTransitionUnmarked | src/models/response.py:137-141 | text without any transition word gets no bold markers |
| ResponseModel.NoDigitsUnchanged | src/models/response.py:144 | text without digits has no numbered items to space out |
| ResponseModel.AdvisorLeadIn | src/models/response.py:150-180 | the lead-in is added exactly when the stripped text has no supportive marker, is longer than 50 characters and has no '?' in its first 100; otherwise the stripped text is returned |
| ResponseModel.SupportiveTextKept | src/models/response.py:161-172 | text containing a supportive marker never gets the lead-in |
| ResponseModel.UnknownModeUnchanged | src/models/response.py:95-107 | a mode other than concise, expert and advisor leaves the content as it is |
| ResponseModel.SelectResponseMode | src/models/response.py:244-284 | a non-empty override is returned as given; otherwise one of concise, expert and advisor |
| ResponseModel.ModeChoice | src/models/response.py:265-284 | without an override: advisor exactly on distressed or frustrated emotion or goal deviation; else expert exactly on complex or moderate; else concise |
| ResponseModel.MissingEmotionIsNeutral | src/models/response.py:265 | a tone without an emotion entry counts as neutral |
| ResponseModel.Response.constructor | src/models/response.py:40-53 | the given ids, text and mode, no citations, context or tool results, confidence 1.0, no tokens and no cost |
| ResponseModel.Response.AddCitation | src/models/response.py:182-191 | exactly one citation appended, stamped with the clock; every other field unchanged |
| ResponseModel.Response.AddToolResult | src/models/response.py:193-206 | exactly one tool result appended; every other field unchanged |
| ResponseProcessor.RunLen | src/core/response_processor.py:127-130 | the run of one character at the start of a text, maximal |
| ResponseProcessor.Rep | src/core/response_processor.py:127-130 | n copies of a character |
| ResponseProcessor.CollapseBelow | src/core/response_processor.py:126-130 | after a substitution every run of that character is shorter than the bound |
| ResponseProcessor.CollapseFixed | src/core/response_processor.py:126-130 | text whose runs are already short is left as it is |
| ResponseProcessor.CollapseOther | src/core/response_processor.py:126-130 | a character other than the collapsed one is copied as it is |
| ResponseProcessor.CollapseKeeps | src/core/response_processor.py:126-130 | collapsing spaces keeps newline runs below their bound |
| ResponseProcessor.RunsBelowNoRun | src/core/response_processor.py:127-130 | short runs mean the text has no match of the pattern left |
| ResponseProcessor.StripKeepsRuns | src/core/response_processor.py:133 | stripping keeps short runs short |
| ResponseProcessor.NormalizeShape | src/core/response_processor.py:117-135 | the result has no three newlines in a row, no two spaces in a row, and no whitespace at either end |
| ResponseProcessor.NormalizeIdempotent | src/core/response_processor.py:117-135 | normalising twice is normalising once |
| ResponseProcessor.NormalizeTidyText | src/core/response_processor.py:117-135 | text with short runs only loses its surrounding whitespace |
| ResponseProcessor.NextPair | src/core/response_processor.py:57-71 | a lazy match: the leftmost opening tag then the nearest closing tag after it, found in the lower-cased text, lying inside the text |
| ResponseProcessor.PairIn | src/core/response_processor.py:57-71 | the same search on an already lower-cased text, inside its bounds |
| ResponseProcessor.RemoveTag | src/core/response_processor.py:71-77 | one substitution never lengthens the text |
| ResponseProcessor.NoOpeningTag | src/core/response_processor.py:57-77 | without an opening tag nothing is removed and nothing is found |
| ResponseProcessor.NoMatchWithoutAngle | src/core/response_processor.py:57-71 | a tag matches nowhere in a stretch without '<' |
| ResponseProcessor.FirstPairIsSpan | src/core/response_processor.py:57-71 | with no '<' before a tagged span or inside it, the first pair matched is that span's tags |
| ResponseProcessor.TagSpanCut | src/core/response_processor.py:57-71 | one tagged span is cut out with everything around it kept, and its body is the first match found |
| ResponseProcessor.CutAt | src/core/response_processor.py:57-71 | the scans' step, stated with the three pieces the pair splits the text into |
| ResponseProcessor.TagStep | src/core/response_processor.py:57-71 | one step of both scans: the matched body is found and the tags with the body are removed, and both scans go on after the closing tag |
| ResponseProcessor.NextPairAt | src/core/response_processor.py:57-71 | the pair found is the first opening tag and the nearest closing tag after it |
| ResponseProcessor.NonEmptyStripped | src/core/response_processor.py:59 | the found search queries, stripped, with the empty ones dropped |
| ResponseProcessor.LongAttributions | src/core/response_processor.py:100 | attributions are kept only when longer than five characters once stripped |
| ResponseProcessor.LowerAll | src/core/response_processor.py:111-112 | the lower-case form of each entry, in order |
| ResponseProcessor.DedupeShape | src/core/response_processor.py:107-113 | the kept entries differ pairwise ignoring case, each comes from the input, and every input entry has its lower-case form kept |
| ResponseProcessor.DedupeSnoc | src/core/response_processor.py:110-113 | one more entry is kept exactly when its lower-case form is new |
| ResponseProcessor.DedupeKeepsFirst | src/core/response_processor.py:110-113 | an entry with no case-insensitive twin before it is kept: the first spelling wins |
| ResponseProcessor.SeenStep | src/core/response_processor.py:110-113 | one pass of the loop keeps `seen` equal to the lower-case forms kept |
| ResponseProcessor.DedupeSources | src/core/response_processor.py:107-113 | the loop with its `seen` set computes the de-duplicated list |
| ResponseProcessor.ExtractSources | src/core/response_processor.py:81-115 | the de-duplicated attribution and URL candidates, at most the first five |
| ResponseProcessor.Take5 | src/core/response_processor.py:115 | `[:5]`: a prefix of at most five entries, the whole list when it is that short |
| ResponseProcessor.SourcesShape | src/core/response_processor.py:81-115 | at most five sources, pairwise different ignoring case, each one of the candidates |
| ResponseProcessor.Process | src/core/response_processor.py:15-46 | the steps in order, with searches and sources recorded in the metadata when found |
| ResponseProcessor.UntaggedUnchanged | src/core/response_processor.py:48-79 | text without an opening tag loses nothing and yields no searches |
| ResponseProcessor.ProcessIdempotent | src/core/response_processor.py:15-46 | once the processed text carries no opening tag, processing it again gives the same text and finds no searches |
| ResponseProcessor.CleanTextStripped | src/core/response_processor.py:15-46 | clean text, with no tags, short runs and no sources, comes back stripped with empty metadata |
| ResponseProcessor.SearchesRecorded | src/core/response_processor.py:28-30 | the searches found are recorded, in order, under searches_performed |
| Conversation.CountTokens | src/models/conversation.py:21-39 | without a tokenizer the count is the length divided by 4, rounded down |
| Conversation.Filled | src/models/conversation.py:111-117 | the stored entry keeps role and content, gets the current time when it has no timestamp, and gets the content's token count only when it has no count and has content |
| Conversation.DropCount | src/models/conversation.py:122-127 | the number of oldest entries the trimming loop pops: every window it pops from was over the budget, and it stops once the window fits or one entry is left |
| Conversation.TrimmedShape | src/models/conversation.py:119-127 | after appending and trimming, the window fits the budget or holds one entry, and the newest entry is last |
| Conversation.WithinBudgetKept | src/models/conversation.py:125 | a window already within the budget loses nothing |
| Conversation.DropsNoMoreThanNeeded | src/models/conversation.py:125-127 | popping one entry fewer would leave the window over the budget |
| Conversation.Visible | src/models/conversation.py:144-156 | the kept entries come from the window in order, and without include_old none is older than the threshold |
| Conversation.IncludeOldKeepsAll | src/models/conversation.py:147 | with include_old every entry is kept, in order |
| Conversation.FreshEntriesKept | src/models/conversation.py:147-154 | an unstamped entry or one within the threshold is always kept |
| Conversation.AsMessages | src/models/conversation.py:156 | succeeds iff every kept entry has a role and a content, giving one role/content message per entry in order; otherwise KeyError |
| Conversation.AsMessagesSnoc | src/models/conversation.py:144-156 | the listing of one more entry is the earlier listing plus that entry's message, or the first KeyError |
| Conversation.VisibleSnoc | src/models/conversation.py:144-156 | one more window entry adds itself to the kept entries unless it is filtered as old |
| Conversation.Session.constructor | src/models/conversation.py:46-57 | a new session has nothing spent, limit 1.0, no messages, source "cli", no tools, an empty window, and is active |
| Conversation.Session.AddCost | src/models/conversation.py:59-66 | the cost is added to the total and one more message is counted; nothing else changes |
| Conversation.Session.EndSession | src/models/conversation.py:87-97 | the session records when it ended and is no longer active; nothing else changes |
| Conversation.Session.AddToContext | src/models/conversation.py:99-127 | the window becomes the old window plus the filled-in message with the oldest DropCount entries removed, so it fits the budget or holds one entry and ends with the new message; the activity time moves to now; nothing else changes |
| Conversation.Session.GetContextMessages | src/models/conversation.py:129-158 | the role/content messages of the kept entries in window order, or KeyError when a kept entry lacks one of them |
| Conversation.VisibleFailurePersists | src/models/conversation.py:156 | once a kept entry lacks its role or content, the whole listing raises |
| Conversation.OverLimitIsApproaching | src/models/conversation.py:68-85 | with a threshold of at most 1 and a non-negative limit, a session past its limit is also approaching it |
| Conversation.CostOnlyGrows | src/models/conversation.py:59-74 | adding a non-negative cost never brings a session back under its limit |
| Query.NewQuery | src/models/query.py:10-22 | a new query keeps its id, timestamp and text, and takes the defaults: simple, no tools, routed local, source "api", confidence 1.0, no session, no tone |
| Query.SpecificNeedsAreTools | src/models/query.py:40-70 | needing web search, RAG or code execution means the query needs tools, and a query needing no tools needs none of them |
| Query.SimpleExcludesComplex | src/models/query.py:24-38 | no query is both simple and complex |
| Query.ToDict | src/models/query.py:72-88 | the storage form has the nine keys of to_dict |
| Query.ToDictMessage | src/models/query.py:82-83 | the stored query is a user message whose content is the raw text |
| Query.ToDictRecord | src/models/query.py:79-85 | the stored query keeps its id as message_id and its complexity level |
| Query.DetectComplexity | src/models/query.py:91-133 | the level is one of simple, moderate or complex |
| Query.ComplexityLevels | src/models/query.py:101-133 | complex iff code execution or three or more capabilities are needed, or none are and a complex keyword occurs in the lower-cased text; moderate iff one or two capabilities other than code execution, or none with a moderate keyword and no complex one; simple otherwise |
| Query.ToolsIgnoreText | src/models/query.py:101-107 | a query needing capabilities is classified without looking at its text, and never as simple |
| Query.KeywordsIgnoreCase | src/models/query.py:110 | keywords are matched case-insensitively |
| Query.CapabilityBeforeKeyword | src/models/query.py:101-125 | "analyze this" alone is complex, but the same text needing one web search is only moderate |
| Query.ClassifiedQuery | src/models/query.py:24-107 | for a query classified by detect_complexity, code execution makes it complex, a simple one needs no tools, and one or two tools without code execution make it neither simple nor complex |
| CodeExecutor.LogLines | src/tools/code_executor.py:236 | a stripped log always splits into at least one line |
| CodeExecutor.Keep | src/tools/code_executor.py:240-244 | the kept lines are at most the given lines |
| CodeExecutor.ParseContainerLogs | src/tools/code_executor.py:225-246 | the per-line loop produces exactly the specified stdout and stderr streams |
| CodeExecutor.KeepSorts | src/tools/code_executor.py:240-244 | each stream holds only lines of the log, and only its own kind: error, traceback, exception or warning lines in stderr, the others in stdout |
| CodeExecutor.KeepPartitions | src/tools/code_executor.py:236-246 | every line goes to exactly one stream: together the two streams are the lines, as a multiset |
| CodeExecutor.KeepConcat | src/tools/code_executor.py:240-244 | the split distributes over concatenation, so each stream keeps the log's order |
| CodeExecutor.TimeoutFallback | src/tools/code_executor.py:259-278 | a timeout result with the fallback flag, the timeout in its message and at most the first 200 characters of the code, a prefix of it |
| CodeExecutor.SuggestionPrecedence | src/tools/code_executor.py:291-304 | exactly one suggestion, chosen by the first matching kind in the order import, syntax, memory, with the generic one otherwise, each in both directions |
| CodeExecutor.ExecutionFallback | src/tools/code_executor.py:280-315 | a failed fallback result with the error message, the one suggestion and the 200-character snippet |
| CodeExecutor.ContainerResult | src/tools/code_executor.py:191-215 | success exactly for exit code 0, an error otherwise, and the data holds both streams of the log and the exit code |
| CodeExecutor.CodeOf | src/tools/code_executor.py:122 | a missing code is the empty string; whatever is returned is already stripped |
| CodeExecutor.Execute | src/tools/code_executor.py:99-151 | without a Docker client the call fails with the fallback flag, and code that strips to nothing fails without it, both before anything runs |
| CodeExecutor.EmptyCodeNeverRuns | src/tools/code_executor.py:122-128 | empty or whitespace-only code gives the no-code failure whatever the sandbox would have done |
| CodeExecutor.RunOutcomes | src/tools/code_executor.py:134-151 | a timeout gives the timeout fallback, a raised error the execution fallback, and a completed run succeeds exactly on exit code 0 with no fallback flag |
| CodeExecutor.Fallback | src/tools/code_executor.py:317-337 | a failed fallback result saying Docker is not running, carrying the original error |
| CodeExecWrapper.InputProblemOf | src/tools/code_exec_wrapper.py:118-170 | input passes exactly when the language is "python" and the mode is one of the two known modes |
| CodeExecWrapper.InputCheckOrder | src/tools/code_exec_wrapper.py:118-170 | the checks run in the order language present, language python, mode present, mode known, each reached only when the earlier ones passed |
| CodeExecWrapper.ValidateInput | src/tools/code_exec_wrapper.py:118-170 | no result exactly for valid input; otherwise a failed result with the first problem's message, listing the keys received when a field is missing |
| CodeExecWrapper.CapacityAh | src/tools/code_exec_wrapper.py:250-257 | mAh is divided by 1000 and Ah kept as it is |
| CodeExecWrapper.MahHasMa | src/tools/code_exec_wrapper.py:254 | the "mah" test adds nothing to the "ma" test |
| CodeExecWrapper.AsWrittenWithoutMa | src/tools/code_exec_wrapper.py:254-257 | without "ma" anywhere in the query the rule as written reads an Ah match as Ah, as the corrected rule does |
| CodeExecWrapper.PutNum | src/tools/code_exec_wrapper.py:243-263 | the key gets the number and every other key keeps its value |
| CodeExecWrapper.WithPack | src/tools/code_exec_wrapper.py:241-244 | parsed XsYp notation sets the series and parallel counts, leaving every other key as it was |
| CodeExecWrapper.PackCapacityAsWritten | src/tools/code_exec_wrapper.py:250-257 | as written, the stored capacity is the Ah match divided by 1000 whenever "ma" occurs anywhere in the query |
| CodeExecWrapper.PackCapacityCorrected | src/tools/code_exec_wrapper.py:250-257 | corrected, an mAh match is divided by 1000 and an Ah match stored as it is, whatever else the query says |
| CodeExecWrapper.MaInExample | src/tools/code_exec_wrapper.py:254 | the query "13s4p 3Ah cells, max 4V" passes the as-written "ma" test through "max" |
| CodeExecWrapper.MaMisreadsAh | src/tools/code_exec_wrapper.py:250-257 | as written, that query stores 0.003 Ah for a 3 Ah cell, where the corrected rule stores 3 |
| CodeExecWrapper.PackVariablesStored | src/tools/code_exec_wrapper.py:235-264 | parsed pack notation overrides the given counts and every key the parsers do not write is kept |
| CodeExecWrapper.PackEnergy | src/tools/code_exec_wrapper.py:276-282 | total cells s·p, and energy (s·V)·(p·Ah) in Wh, a thousandth of it in kWh |
| CodeExecWrapper.PackExample | src/tools/code_exec_wrapper.py:276-282 | a 13S4P pack of 3.6 V, 3.4 Ah cells holds 52 cells and 636.48 Wh |
| CodeExecWrapper.RangeDistance | src/tools/code_exec_wrapper.py:328-331 | capacity over a positive consumption, and 0 without one |
| CodeExecWrapper.ReverseConversion | src/tools/code_exec_wrapper.py:355-366 | every supported conversion has a supported reverse; the two factors multiply to 1 exactly for energy and charge and to within 0.00001 for speed |
| CodeExecWrapper.SpeedFactorsInexact | src/tools/code_exec_wrapper.py:360-361 | the two speed factors are not exact inverses |
| CodeExecWrapper.PackTask | src/tools/code_exec_wrapper.py:223-297 | a generated program is a pack-energy program, and variables that are not a dict raise TypeError (at the `in` test, the `["query"]` index or the `**` unpacking) |
| CodeExecWrapper.KeyTestError | src/tools/code_exec_wrapper.py:307-316 | for variables that are not a dict, a handler that tests `key in variables` and then reads them as a dict raises AttributeError exactly for a string without the key as a substring or a list without the key as an item, and TypeError otherwise |
| CodeExecWrapper.Thousandfold | src/tools/code_exec_wrapper.py:308 | `value * 1000`: a number scales, a boolean gives 0 or 1000, a string or list is repeated a thousand times, and only None and a dict raise |
| CodeExecWrapper.RangeTask | src/tools/code_exec_wrapper.py:299-343 | a generated program is a range program; variables that are not a dict raise the class `KeyTestError` gives for the `battery_capacity_kwh` test; for a dict it raises exactly when that capacity is null or a dict, so a string, list or boolean capacity still generates a program |
| CodeExecWrapper.RangeTextCapacity | src/tools/code_exec_wrapper.py:307-308 | a kWh capacity given as text generates a program whose capacity is that text repeated a thousand times |
| CodeExecWrapper.RangePrecedence | src/tools/code_exec_wrapper.py:307-318 | with both capacities and both consumptions given, the kWh capacity times 1000 and the per-km consumption are used, with unit km |
| CodeExecWrapper.RangeDefaults | src/tools/code_exec_wrapper.py:307-318 | with neither capacity nor consumption given, both are 0 and the unit is miles |
| CodeExecWrapper.UnitConversionTask | src/tools/code_exec_wrapper.py:345-379 | the program is generated exactly when the variables hold the value and both unit names |
| CodeExecWrapper.WithoutQuery | src/tools/code_exec_wrapper.py:420 | the assignments are exactly the variables other than query |
| CodeExecWrapper.GenericMathShape | src/tools/code_exec_wrapper.py:401-435 | pack notation in the query delegates to the pack-energy task; otherwise query is never assigned |
| CodeExecWrapper.GenerateCode | src/tools/code_exec_wrapper.py:172-196 | no program exactly for a hashable task outside the six names; a list or dict task cannot be looked up and raises; the datetime task's program does not depend on the variables; every other known task raises on variables that are not a dict |
| CodeExecWrapper.MissingFieldData | src/tools/code_exec_wrapper.py:60-80 | the data lists the keys received |
| CodeExecWrapper.RunRawCode | src/tools/code_exec_wrapper.py:54-65 | raw code is given to the executor as it is; without code the call fails listing the keys received |
| CodeExecWrapper.UnknownTask | src/tools/code_exec_wrapper.py:90-105 | a failed result naming the unknown task |
| CodeExecWrapper.RunTask | src/tools/code_exec_wrapper.py:68-105 | a missing or falsy task fails listing the keys received; an unknown string task fails naming it and runs nothing; a list or dict task raises |
| CodeExecWrapper.NonDictVariablesNeverRun | src/tools/code_exec_wrapper.py:68-89 | with a truthy task and variables that are not a dict nothing is executed: the call raises or reports the unknown task, and the datetime task raises AttributeError at the logged `variables.keys()` |
| CodeExecWrapper.Execute | src/tools/code_exec_wrapper.py:30-116 | a validation failure is returned before anything is generated or run; valid input goes to raw-code or task mode (with task mode's error cases as `RunTask` states them), and the invalid-mode branch is never reached |
| CodeExecWrapper.ValidationFirst | src/tools/code_exec_wrapper.py:47-49 | the first input problem is what execute reports, whatever the sandbox, parsers or renderer |
| Health.AllAre | src/api/handlers/health.py:75-77 | true iff every status in the list equals the given one |
| Health.Overall | src/api/handlers/health.py:72-80 | healthy iff every service is healthy; unhealthy iff some service is not healthy and every service is unhealthy; degraded otherwise |
| Health.OneUnknownDegrades | src/api/handlers/health.py:75-80 | one status that is neither healthy nor unhealthy makes the overall status degraded |
| Health.Statuses | src/api/handlers/health.py:73 | the statuses of the services, one per service in order |
| Health.ConfigCheck | src/api/handlers/health.py:22-41 | the "configuration" entry is healthy iff the loaded config is non-empty, unhealthy otherwise |
| Health.ModelsCheck | src/api/handlers/health.py:43-63 | the "model_mapping" entry is healthy iff listing the models succeeds with at least one model, with the message "<n> models configured"; unhealthy otherwise, including when the listing raises |
| Health.CheckHealth | src/api/handlers/health.py:11-87 | the services are config, models and orchestrator in that order, built by the two checks and an "unknown" orchestrator entry; the overall status is aggregated from them and is therefore always degraded |
| ToolInvocation.NewInvocation | src/models/tool_invocation.py:10-22 | a new record is pending with no parameters, result or error, zero time, no fallback, and is neither successful nor failed |
| ToolInvocation.SuccessExcludesFailure | src/models/tool_invocation.py:24-38 | a run is never both successful and failed; it is failed iff its status is "failed" or "timeout" |
| ToolInvocation.ToDict | src/models/tool_invocation.py:40-57 | the dictionary has the ten keys of to_dict in their order |
| ToolInvocation.ToDictRoundTrip | src/models/tool_invocation.py:40-57 | to_dict loses nothing: reading the dictionary back gives the same record |
| ToolsRouting.RouteToolModel | tools/tools.py:48-62 | the backtick prefixes decide first (gpt, gemini, kai with the 1000-character split); then "research"/"explain" give gemini, and otherwise "write code"/"debug" give gpt-4o; without a prefix or keyword, gemma exactly for a fenced or long text and smollm otherwise; the small model only ever gets texts of at most 1000 characters and, without a prefix, only texts with no fence and none of the keywords; gemma gets only long or fenced texts |
| BaseTool.ExecuteWithFallback | src/tools/base_tool.py:69-83 | the primary result when execute returns, otherwise the fallback's outcome for the exception execute raised |
| BaseTool.Missing | src/tools/base_tool.py:95 | exactly the required fields absent from the parameters, in required order |
| BaseTool.MissingConcat | src/tools/base_tool.py:95 | the missing-field list of a concatenation of requirements is the concatenation of the lists |
| BaseTool.ValidateParameters | src/tools/base_tool.py:85-97 | raises iff some required field is absent, with "Missing required parameters: " followed by the missing fields' list |
| RateLimiter.EffectiveBurst | src/lib/rate_limiter.py:23 | a missing or zero burst size falls back to the per-minute rate; any other burst size is kept |
| RateLimiter.Refill | src/lib/rate_limiter.py:79-90 | when the elapsed time earns at least one token the bucket becomes min(burst, tokens + earned) and the refill time moves to now; otherwise tokens and refill time are unchanged |
| RateLimiter.RefillBounded | src/lib/rate_limiter.py:88-90 | from a bucket within [0, burst], a refill never removes tokens and never exceeds the burst size |
| RateLimiter.FullStaysFull | src/lib/rate_limiter.py:88-90 | a full bucket stays at exactly the burst size whatever time has passed |
| RateLimiter.Record | src/lib/rate_limiter.py:29 | appending to the bounded deque keeps the newest readings, one more when below 1000 entries and exactly 1000 otherwise, as the tail of history + [t] |
| RateLimiter.RecordShape | src/lib/rate_limiter.py:29 | the history never exceeds 1000 readings, the new reading is last, and below the limit nothing is dropped |
| RateLimiter.RecentCallsRecord | src/lib/rate_limiter.py:101-104 | recording a call below the history limit adds exactly one call to the last-minute count |
| RateLimiter.StatsOf | src/lib/rate_limiter.py:92-112 | fails (division by zero) iff the rate is zero; otherwise recent calls are those under 60 s old, utilization * rate == recent * 100, and available tokens is the truncation of the token count |
| RateLimiter.Limiter.constructor | src/lib/rate_limiter.py:15-29 | a new limiter holds the rate, the effective burst, a full bucket, the refill time now and an empty history, and is valid for a non-negative burst |
| RateLimiter.Limiter.RefillTokens | src/lib/rate_limiter.py:79-90 | the new token count and refill time are Refill of the old ones; rate, burst and history are unchanged |
| RateLimiter.Limiter.Acquire | src/lib/rate_limiter.py:31-52 | after the refill, succeeds iff at least n tokens are there; success takes n tokens and records now in the history, refusal keeps the refilled count and the history; a valid bucket stays valid |
| RateLimiter.AcquireAccounting | src/lib/rate_limiter.py:43-46 | a successful acquire leaves between 0 and burst tokens, and a request for more than the burst size is always refused |
| RateLimiter.MultiService.constructor | src/lib/rate_limiter.py:118-120 | the registry starts empty |
| RateLimiter.MultiService.AddService | src/lib/rate_limiter.py:122-139 | the name maps to a fresh full limiter with that rate and effective burst and an empty history; every other name keeps its limiter |
| RateLimiter.MultiService.Acquire | src/lib/rate_limiter.py:141-155 | an unknown service is let through; a known one's limiter gets exactly the single Acquire's new tokens, refill time and history, and the answer says whether n refilled tokens were there |
| RateLimiter.MultiService.AllStats | src/lib/rate_limiter.py:178-187 | one statistics entry per registered service, each that limiter's own statistics |
| RateLimiter.RecentCalls | src/lib/rate_limiter.py:101-104 | the calls under 60 seconds old, never more than the history holds |
| Metrics.Bump | src/lib/metrics.py:70-72 | the key's count rises by one and no other key's count moves |
| Metrics.AddToolsCounts | src/lib/metrics.py:74-75 | each tool's count rises by the number of times it is listed |
| Metrics.LastNSnoc | src/lib/metrics.py:40-61 | appending to a trimmed history and trimming again is trimming the whole record |
| Metrics.OfModel | src/lib/metrics.py:173-174 | the records of one model are records of the history with that model |
| Metrics.CostByModelSums | src/lib/metrics.py:171-174 | the breakdown lists exactly the models of the retained records, each with the sum of its records' costs |
| Metrics.SumCostLastN | src/lib/metrics.py:40-174 | while nothing has been evicted the retained costs add up to the running total |
| Metrics.Insert | src/lib/metrics.py:151 | inserting into an ascending list keeps it ascending and adds exactly the value |
| Metrics.Sort | src/lib/metrics.py:151 | sorting gives the same times in ascending order |
| Metrics.ResponseTimes | src/lib/metrics.py:151 | one response time per retained record, in order |
| Metrics.PercentileIndex | src/lib/metrics.py:154-156 | the index int(n * p / 100), clamped to the last position |
| Metrics.PercentileIndexMonotone | src/lib/metrics.py:154-156 | a higher percentile never comes from an earlier position |
| Metrics.PercentilesOf | src/lib/metrics.py:143-149 | all zeros for an empty history |
| Metrics.PercentilesOrdered | src/lib/metrics.py:151-163 | p50 <= p90 <= p95 <= p99, and each is a retained response time |
| Metrics.LastSlice | src/lib/metrics.py:120 | Python's xs[-count:]: the last count for a positive count, all for 0, all but the first -count for a negative one |
| Metrics.RecentEntries | src/lib/metrics.py:120-135 | one entry per record of the slice, in order |
| Metrics.RecentIsNewest | src/lib/metrics.py:120-135 | a positive count gives the newest count records, oldest first |
| Metrics.SumsSnoc | src/lib/metrics.py:64-78 | one more record adds its cost, tokens and time to the sums and counts its failure |
| Metrics.InitialConsistent | src/lib/metrics.py:39-53 | fresh totals agree with an empty record of queries |
| Metrics.RecordedConsistent | src/lib/metrics.py:55-78 | recording keeps the totals the sums over every query and the history the newest of them |
| Metrics.RecordedCounts | src/lib/metrics.py:64-78 | one query counts once in its complexity, model and mode, once per listing in each tool and as an error exactly when it failed; no other count moves |
| Metrics.RecordedHistory | src/lib/metrics.py:40-61 | the history stays within max_history, ends with the new record when it can hold one, and keeps the newest old ones |
| Metrics.CountTools | src/lib/metrics.py:74-75 | the tool loop adds exactly the listed tools |
| Metrics.RecordTotals | src/lib/metrics.py:61-78 | the aggregate and counter updates of one record, the tool loop included, give exactly `Recorded` of the old totals |
| Metrics.SummaryOf | src/lib/metrics.py:80-109 | the no-queries message exactly before the first query; afterwards totals and averages over every query (rounding aside) and the counters |
| Metrics.RecentNonPositive | src/lib/metrics.py:120 | count 0 reports the whole history and a negative count all but that many of the oldest |
| Metrics.EvictedCostLeavesBreakdown | src/lib/metrics.py:65-177 | once a record is evicted, the per-model breakdown no longer sees it while the total still counts it |
| MetricsCollector.Collector.constructor | src/lib/metrics.py:33-53 | a new collector has the initial totals and an empty history bounded by max_history |
| MetricsCollector.Collector.RecordQuery | src/lib/metrics.py:55-78 | the totals move to those of one more query, kept consistent with every query recorded |
| MetricsCollector.Collector.GetSummary | src/lib/metrics.py:80-109 | the summary of the current totals |
| MetricsCollector.Collector.GetRecentQueries | src/lib/metrics.py:111-135 | the recent entries of the current history |
| MetricsCollector.Collector.GetPerformancePercentiles | src/lib/metrics.py:137-163 | the percentiles of the current history |
| MetricsCollector.Collector.GetCostBreakdown | src/lib/metrics.py:165-182 | the running total and each retained model's summed cost |
| MetricsCollector.Collector.Reset | src/lib/metrics.py:184-197 | every total and counter back to its initial value and the history emptied |
| MemoryScores.FusionScore | memory/store.py:606-614 | with weight 1 the fused score is the dense one and with weight 0 the sparse one |
| MemoryScores.FusionBounds | memory/store.py:606-614 | scores in [0, 1] fuse to a score in [0, 1] for any weight in [0, 1] |
| MemoryScores.FusionMonotone | memory/store.py:606-614 | the fused score never falls when either score rises |
| MemoryScores.DenseOutweighsSparse | memory/store.py:471-610 | with the default weight 0.7 a perfect dense match outranks a perfect sparse one |
| MemoryScores.MinScore | memory/store.py:462 | the minimum is at most every score |
| MemoryScores.MaxScore | memory/store.py:463 | the maximum is at least every score |
| MemoryScores.NormMap | memory/store.py:459-466 | normalisation keeps the ids, maps a flat map (spread below 1e-12) to all 1.0 and any other to (v - min) / (max - min), always into [0, 1] |
| MemoryScores.Scaled | memory/store.py:466 | each score becomes its share of the spread above the minimum |
| MemoryScores.Ratio | memory/store.py:466 | a share of a positive whole lies in [0, 1] |
| MemoryScores.RatioMonotone | memory/store.py:466 | the share grows with the part |
| MemoryScores.NormMapOrder | memory/store.py:459-466 | normalisation keeps the order of the scores |
| MemoryStore.NormalizedJoin | memory/store.py:95-96 | the normalised text is the text's words, lower-cased, joined by single spaces |
| MemoryStore.NormalizeWords | memory/store.py:95-96 | the words of the normalised text are the text's words lower-cased |
| MemoryStore.NormalizeIdempotent | memory/store.py:95-96 | normalising twice is normalising once |
| MemoryStore.TokensAreLoweredWords | memory/store.py:119-120 | the tokens are the lower-cased words, none of them empty |
| MemoryStore.NormalizeIgnoresStrip | memory/store.py:95-96 | stripping before splitting sees the same words as splitting alone |
| MemoryStore.NormalizeSpacing | memory/store.py:95-96 | any whitespace run between two parts reads as one space |
| MemoryStore.NormalizePadding | memory/store.py:95-96 | whitespace around the text is dropped |
| MemoryStore.Jaccard | memory/store.py:123-128 | zero when either token set is empty, else shared tokens over all tokens, in [0, 1] |
| MemoryStore.JaccardSymmetric | memory/store.py:123-128 | the score does not depend on which side is the query |
| MemoryStore.JaccardSelf | memory/store.py:123-128 | a non-empty token list overlaps itself fully |
| MemoryStore.JaccardDisjoint | memory/store.py:123-128 | token lists with nothing in common score zero |
| MemoryStore.DefaultTtl | memory/store.py:368-381 | a default exactly for an upper-cased type in the table, never below two hours |
| MemoryStore.DefaultTtlFact | memory/store.py:370-381 | fact, in any case, lives ten years |
| MemoryStore.DefaultTtlScratch | memory/store.py:376-381 | Scratch lives two hours |
| MemoryStore.DefaultTtlUnknown | memory/store.py:369-381 | a type outside the table such as episodic has no default |
| MemoryStore.DefaultTtlIgnoresCase | memory/store.py:380-381 | lower-casing a type first does not change its default |
| MemoryStore.StripAll | memory/store.py:103 | each anchor is stripped, in order |
| MemoryStore.DedupKey | memory/store.py:99-105 | texts with the same words up to case hash alike for the same type and anchors |
| MemoryStore.DedupIgnoresSpacing | memory/store.py:95-105 | re-spacing or padding the text keeps the hash input |
| MemoryStore.ScoreOf | memory/store.py:473-474 | an id without a score scores 0.0 |
| MemoryStore.Prepare | memory/store.py:390-400 | the defaults remember fills in: the hash when unset, creation time now, last-seen the creation time, the type's TTL when unset, the embedding; nothing else changes |
| MemoryStore.ToRow | memory/store.py:184-201 | the row upsert writes: a missing id is the hash or a random one; hash, ttl and metadata are kept |
| MemoryStore.FindHash | memory/store.py:315-319 | the position of the first row with the hash, or none when no row has it |
| MemoryStore.FindHashFrom | memory/store.py:315-319 | the first row with the hash at or after a position before which none has it |
| MemoryStore.FindHashSameHashes | memory/store.py:315-319 | tables with the same hashes in the same places find a hash at the same place |
| MemoryStore.RemoveId | memory/store.py:233-242 | every row with the id goes and the rest stay; a missing id changes nothing and a present one shrinks the table |
| MemoryStore.RemoveIdConcat | memory/store.py:233-242 | deleting from a concatenation deletes from each part |
| MemoryStore.RemoveIdUnique | memory/store.py:233-242 | deleting keeps the ids unique |
| MemoryStore.Refresh | memory/store.py:289-410 | the rows with the id get the new last-seen time and, when given, the metadata; other rows are unchanged |
| MemoryStore.MergeMetaLookup | memory/store.py:407-408 | after the merge a key holds the item's value when the item has it, else the existing value |
| MemoryStore.DistinctKeysTail | memory/store.py:407-408 | the first key of a dict with distinct keys is not among the rest |
| MemoryStore.RememberedFindsHash | memory/store.py:384-415 | after remember the first row with the item's hash carries the returned id |
| MemoryStore.RememberDedup | memory/store.py:384-415 | remembering a second item with the same type, normalised text and anchors returns the first id and adds no row |
| MemoryStore.RememberMergesMetadata | memory/store.py:402-411 | a duplicate's row is seen now and carries the merged metadata, new keys overriding |
| MemoryStore.RememberNewUsesHash | memory/store.py:397-415 | a new item without an id is stored last under its hash, with its type's default TTL when it had none |
| MemoryStore.RememberUnique | memory/store.py:384-415 | remember keeps the ids unique |
| MemoryStore.NumExpired | memory/store.py:527-541 | no more rows expire than the table holds |
| MemoryStore.Kept | memory/store.py:527-541 | the kept rows and the expired count make up the table |
| MemoryStore.KeptSound | memory/store.py:535-540 | every row gc leaves was in the table and has not expired |
| MemoryStore.KeptComplete | memory/store.py:535-540 | every unexpired row stays |
| MemoryStore.KeptUnique | memory/store.py:535-540 | gc keeps the ids unique |
| MemoryStore.ExpiredIsCounted | memory/store.py:535-541 | a table with an expired row loses at least one row to gc |
| MemoryStore.DenseScores | memory/store.py:445-448 | each row's dense score is the cosine of the query embedding and the row's |
| MemoryStore.SparseOf | memory/store.py:264-274 | the rows with a positive overlap, each score in (0, 1] |
| MemoryStore.PassesFilters | memory/store.py:481-494 | no filter admits every row; the filters raise exactly when a type test passes and metadata_contains is set but not a dict |
| MemoryStore.DaysSince | memory/store.py:131-132 | the elapsed days are never negative |
| MemoryStore.Decayed | memory/store.py:418-427 | a non-positive decay leaves the score unchanged |
| MemoryStore.DecayNeverRaises | memory/store.py:418-427 | with an exp in [0, 1] on non-positive arguments, decay never raises a non-negative score |
| MemoryStore.Scored | memory/store.py:472-502 | the scoring loop raises exactly when some row's filter raises |
| MemoryStore.ScoredRows | memory/store.py:472-502 | the scored candidates are the admitted rows, in table order |
| MemoryStore.FilterFailsSome | memory/store.py:481-494 | the filter raises on the table exactly when it raises on one of its rows |
| MemoryStore.AdmittedRows | memory/store.py:476-499 | every candidate is a row of the table that passes the filters and has not expired |
| MemoryStore.AdmittedComplete | memory/store.py:476-499 | every admitted row is a candidate |
| MemoryStore.ScoredWithoutFilters | memory/store.py:481 | without filters the scoring cannot raise |
| MemoryStore.RecalledWithoutFilters | memory/store.py:430-509 | without filters recall always returns |
| MemoryStore.ScoreDescending | memory/store.py:504 | a sequence descending in the sort key is descending in score |
| MemoryStore.SortDesc | memory/store.py:504 | the sort gives the same entries, highest score first |
| MemoryStore.PyHead | memory/store.py:505 | Python's xs[:k]: a prefix of length k, or of all but -k entries for a negative k |
| MemoryStore.RecallSound | memory/store.py:430-509 | recall returns at most k rows, in descending score, each one admitted |
| MemoryStore.TopAdmitted | memory/store.py:504-505 | the best k of admitted candidates are admitted rows |
| MemoryStore.TopFromCandidates | memory/store.py:504-505 | every returned entry is one of the scored candidates |
| MemoryStore.RecallErrors | memory/store.py:481-494 | recall raises exactly when some row meets a metadata_contains that is not a dict |
| MemoryStore.RecallTopK | memory/store.py:504-505 | the candidates recall leaves out score no higher than those it returns |
| MemoryStore.FirstsOf | memory/store.py:505 | the rows of the scored entries, in order |
| MemoryStore.Touched | memory/store.py:506-508 | every returned row is marked as seen now; the others are unchanged |
| MemoryStore.IdsOf | memory/store.py:507-508 | the ids of the rows, in order |
| MemoryStore.TouchedStep | memory/store.py:507-508 | refreshing one more returned id is touching it too |
| MemoryStore.TouchedKeepsIds | memory/store.py:507-508 | touching keeps every row's id and hash in place |
| MemoryBackend.Store.constructor | memory/store.py:149-182 | a new store has no rows and unique ids |
| MemoryBackend.Store.FindByHash | memory/store.py:315-319 | a found row is in the table and has the hash; none when no row has it |
| MemoryBackend.Store.Upsert | memory/store.py:184-219 | the item's row replaces any row with its id and goes last; ids stay unique |
| MemoryBackend.Store.UpdateFields | memory/store.py:289-313 | true exactly when the id is in the table, and the table is refreshed |
| MemoryBackend.Store.Forget | memory/store.py:233-242 | true exactly when there was a row with the id, and that row is gone |
| MemoryBackend.Store.Remember | memory/store.py:384-415 | the table and id are those of Remembered, so RememberDedup and RememberMergesMetadata apply; ids stay unique |
| MemoryBackend.Store.Gc | memory/store.py:527-541 | exactly the expired rows are deleted, in one pass, and their number is returned |
| MemoryBackend.Store.Recall | memory/store.py:430-509 | the best k admitted rows as they were before; each returned row is then seen now; a raising filter changes nothing |
| MemoryBackend.Store.InjectRelevantMemory | memory/store.py:581-602 | the lines of recall(turn, k=20) packed while they fit the budget, the recalled rows marked as seen |
| MemoryInject.Entry | memory/store.py:594 | a candidate's line starts with its bracketed type and id prefix |
| MemoryInject.Lines | memory/store.py:593-594 | one line per candidate, in order |
| MemoryInject.Fits | memory/store.py:593-599 | at most every line is packed |
| MemoryInject.FitsAt | memory/store.py:595-599 | a line that overruns the budget stops the packing; one that fits goes in |
| MemoryInject.FitsWithin | memory/store.py:595-599 | the packed lines' tokens stay within the budget |
| MemoryInject.FitsStops | memory/store.py:596-597 | packing stops only at a line that would overrun the budget |
| MemoryInject.ContextEmpty | memory/store.py:600-601 | the block is empty exactly when there is no candidate or the first does not fit |
| MemoryInject.PackContext | memory/store.py:586-602 | the packing loop builds exactly the specified block |
| MemoryVault.AllTypesComplete | src/storage/memory_vault.py:21-29 | every type sits in MEMORY_TYPES at its own index |
| MemoryVault.IndexOfType | src/storage/memory_vault.py:21-29 | the type at a position of MEMORY_TYPES is the only one with that index |
| MemoryVault.TypeOf | src/storage/memory_vault.py:21-58 | the type a string names, or none when no type has that name |
| MemoryVault.PathForType | src/storage/memory_vault.py:57-61 | the type's file for a supported type; ValueError with its message exactly for a string no type has |
| MemoryVault.PathOfName | src/storage/memory_vault.py:57-61 | every type's own name resolves back to it |
| MemoryVault.Keep | src/storage/memory_vault.py:133-142 | at most the lines of the file are kept |
| MemoryVault.KeepConcat | src/storage/memory_vault.py:133-142 | the lines of a file are filtered independently and in order |
| MemoryVault.KeepMembers | src/storage/memory_vault.py:133-142 | exactly the decoded records of the file that carry the tag are kept; lines that do not decode are skipped |
| MemoryVault.MatchingConcat | src/storage/memory_vault.py:129-142 | the files are read independently and in order |
| MemoryVault.Capped | src/storage/memory_vault.py:139-140 | the listing is a prefix no longer than a positive limit |
| MemoryVault.ListPaths | src/storage/memory_vault.py:122-126 | a named type reads only its file and raises as _path_for_type does; no type reads every file in MEMORY_TYPES order |
| MemoryVault.ListedOfType | src/storage/memory_vault.py:123-124 | listing one type by its own name never raises |
| MemoryVault.ListedSound | src/storage/memory_vault.py:115-143 | every listed record is a decoded line of a file that was read and carries the tag |
| MemoryVault.MatchedIn | src/storage/memory_vault.py:129-142 | a matching record comes from the file of one of the types read |
| MemoryVault.MatchingMembers | src/storage/memory_vault.py:129-142 | a tagged record in a file that is read is among the matching records |
| MemoryVault.ListedComplete | src/storage/memory_vault.py:115-143 | without a limit every tagged record of every file is listed |
| MemoryVault.Elapsed | src/storage/memory_vault.py:194-204 | the difference of two datetimes exists exactly when both are naive or both aware |
| MemoryVault.KeptBy | src/storage/memory_vault.py:180-212 | the rewrite keeps at most the file's lines |
| MemoryVault.CountBy | src/storage/memory_vault.py:209-210 | no more records are removed than the file holds |
| MemoryVault.PruneLines | src/storage/memory_vault.py:180-212 | the scan of one file returns the lines to write back and the number removed |
| MemoryVault.KeptByConcat | src/storage/memory_vault.py:182-212 | kept lines keep their relative order across any split of the file |
| MemoryVault.KeptByMembers | src/storage/memory_vault.py:182-212 | a line is written back exactly when it is a record the rules keep; a malformed line never is |
| MemoryVault.KeptByAccounting | src/storage/memory_vault.py:182-212 | every line is written back, counted as removed or malformed |
| MemoryVault.PruneFile | src/storage/memory_vault.py:213-217 | a file without removals is left untouched |
| MemoryVault.Pruned | src/storage/memory_vault.py:176-217 | prune touches only the files that exist |
| MemoryVault.PrunedUpToAt | src/storage/memory_vault.py:176-217 | after j types, the first j files are pruned and the others untouched |
| MemoryVault.PrunedUpToAll | src/storage/memory_vault.py:176-217 | after every type the vault is the pruned vault |
| MemoryVault.CountsUpToAt | src/storage/memory_vault.py:174-210 | after j types, the first j types hold their removal counts and the others zero |
| MemoryVault.CountsUpToAll | src/storage/memory_vault.py:174-218 | every type gets a count, that of its removed records |
| MemoryVault.EpisodeLifetime | src/storage/memory_vault.py:111-195 | an episode that is not low-confidence is removed exactly when more than 90 days have passed since its naive creation time |
| MemoryVault.KeptForever | src/storage/memory_vault.py:187-211 | a record without a confidence or a ttl is never pruned |
| MemoryVault.UnreadableLowConfidence | src/storage/memory_vault.py:201-207 | a low-confidence record with no readable time, or an aware one, is removed at once |
| MemoryVault.AwareNeverExpires | src/storage/memory_vault.py:191-197 | a record with an aware creation time never expires by its ttl, as the subtraction raises and is ignored |
| MemoryVault.NewRecord | src/storage/memory_vault.py:73-83 | the record add builds: the given id and time, no last use and missing tags as the empty list |
| MemoryVault.EpisodePayload | src/storage/memory_vault.py:100-105 | the episode payload has session_id, user, assistant and success, in that order |
| MemoryVault.Vault.constructor | src/storage/memory_vault.py:51-55 | opening a vault keeps the files already in its directory |
| MemoryVault.Vault.Add | src/storage/memory_vault.py:63-87 | an unsupported type raises and writes nothing; otherwise exactly one new record is appended to its type's file |
| MemoryVault.Vault.AddEpisode | src/storage/memory_vault.py:89-113 | an episodic record with a 90-day ttl and the exchange as payload, appended to the episodic file |
| MemoryVault.Vault.List | src/storage/memory_vault.py:115-143 | the listing is the specified one, so ListedSound and ListedComplete apply |
| MemoryVault.Vault.Prune | src/storage/memory_vault.py:169-218 | every type gets the count of its removed records and the vault becomes the pruned vault |
| MemoryVault.ListFile | src/storage/memory_vault.py:129-142 | one file of the listing extends the matching records, or returns the capped listing when the limit is reached |
| MemoryVault.ScanLines | src/storage/memory_vault.py:133-142 | the scan of one file appends its tagged records, stopping right after the append that reaches the limit |
| MemoryVault.KeepStep | src/storage/memory_vault.py:133-142 | one more line extends the kept records exactly when it is a tagged record |
| MemoryVault.ListStep | src/storage/memory_vault.py:129-142 | one more file extends the listing by that file's kept records |
| MemoryVault.ListStops | src/storage/memory_vault.py:139-140 | the early return hands back exactly the capped listing |
| Sorting.InsertDesc | src/api/handlers/memory_vault_api.py:60-141 | the insertion adds exactly the one element |
| Sorting.SortDesc | src/api/handlers/memory_vault_api.py:60-141 | the sort keeps the length and the elements, as a multiset |
| Sorting.InsertDescSorted | src/api/handlers/memory_vault_api.py:60-141 | inserting into a descending sequence keeps it descending |
| Sorting.SortDescSorted | src/api/handlers/memory_vault_api.py:60-141 | for a strict weak order the result is descending and a permutation of the input |
| Sorting.SortDescOfDescending | src/api/handlers/memory_vault_api.py:60-141 | an input already descending is left as it is |
| Sorting.StrLtIrreflexive | src/api/handlers/memory_vault_api.py:60 | the string order on timestamps is irreflexive |
| Sorting.StrLtTransitive | src/api/handlers/memory_vault_api.py:60 | the string order is transitive |
| Sorting.StrLtTotal | src/api/handlers/memory_vault_api.py:60 | two different strings are ordered one way or the other |
| Sorting.StrKeyStrictWeak | src/api/handlers/memory_vault_api.py:60 | ordering by a string key, as the listing orders by creation time, is a strict weak order |
| Sorting.IntKeyStrictWeak | src/api/handlers/memory_vault_api.py:141 | ordering by an integer key, as the search orders by match count, is a strict weak order |
| Sorting.RealKeyStrictWeak | memory/store.py:504 | ordering by a numeric key, as recall orders by score, is a strict weak order |
| MemoryVaultApi.TypeNamesAreTypes | src/api/handlers/memory_vault_api.py:42 | the handler's type names are the vault's types, in MEMORY_TYPES order |
| MemoryVaultApi.TypesToFetch | src/api/handlers/memory_vault_api.py:42-107 | a non-empty type fetches only that type; a missing or empty one fetches every type |
| MemoryVaultApi.Gathered | src/api/handlers/memory_vault_api.py:44-114 | a raised exception other than ValueError comes from one of the fetches; when every fetch returns or raises ValueError the records are gathered |
| MemoryVaultApi.GatheredStops | src/api/handlers/memory_vault_api.py:44-50 | once a fetch has raised, the remaining types are never fetched |
| MemoryVaultApi.GatheredMembers | src/api/handlers/memory_vault_api.py:44-50 | a record is gathered exactly when it is a record of one of the fetched types |
| MemoryVaultApi.Gather | src/api/handlers/memory_vault_api.py:44-50 | the fetch loop gathers exactly the specified records |
| MemoryVaultApi.WithAllTags | src/api/handlers/memory_vault_api.py:53-57 | exactly the records that carry every requested tag are kept |
| MemoryVaultApi.FilterTags | src/api/handlers/memory_vault_api.py:53-57 | a missing or empty tag list keeps every record; otherwise exactly those with all the tags |
| MemoryVaultApi.SortNewest | src/api/handlers/memory_vault_api.py:60 | the sort raises exactly when two or more records are sorted and one has no creation time |
| MemoryVaultApi.SortNewestOrder | src/api/handlers/memory_vault_api.py:60 | the sorted records are a permutation of the input, newest first |
| MemoryVaultApi.Paginate | src/api/handlers/memory_vault_api.py:63-78 | the slice [offset, offset + limit), the total counted before the cut, has_more exactly when offset + limit < total |
| MemoryVaultApi.HasMoreIffNextPage | src/api/handlers/memory_vault_api.py:76 | has_more says exactly that the next page is not empty |
| MemoryVaultApi.PagesTile | src/api/handlers/memory_vault_api.py:64 | two consecutive pages make up the page that covers both |
| MemoryVaultApi.ListResponse | src/api/handlers/memory_vault_api.py:16-82 | 422 exactly for a limit outside [1, 1000] or a negative offset; a page echoes its limit and offset |
| MemoryVaultApi.ListedSound | src/api/handlers/memory_vault_api.py:40-64 | a listed record was read from one of the chosen types and carries every requested tag |
| MemoryVaultApi.PagedFromKept | src/api/handlers/memory_vault_api.py:60-64 | a record on a page is one of the records sorted |
| MemoryVaultApi.ListedOrder | src/api/handlers/memory_vault_api.py:53-64 | the total counts the filtered records and a page lists them newest first |
| MemoryVaultApi.ListMemories | src/api/handlers/memory_vault_api.py:16-82 | the handler's answer is the specified one |
| MemoryVaultApi.TagHits | src/api/handlers/memory_vault_api.py:128-130 | the number of tags whose lower-cased text contains the query; zero exactly when none does |
| MemoryVaultApi.CountTagHits | src/api/handlers/memory_vault_api.py:128-130 | the tag loop counts exactly the matching tags |
| MemoryVaultApi.ScorePositive | src/api/handlers/memory_vault_api.py:121-137 | a record scores exactly when its summary, a tag or its payload text contains the query |
| MemoryVaultApi.EmptyQueryScores | src/api/handlers/memory_vault_api.py:133-135 | the empty query is in every payload text, so every record scores at least 3 |
| MemoryVaultApi.Scored | src/api/handlers/memory_vault_api.py:118-138 | each match is a record of the input with its positive score |
| MemoryVaultApi.ScoredComplete | src/api/handlers/memory_vault_api.py:137-138 | every scoring record is among the matches |
| MemoryVaultApi.EmptyQueryMatchesAll | src/api/handlers/memory_vault_api.py:118-138 | with an empty query every record is a match |
| MemoryVaultApi.ScoreOf | src/api/handlers/memory_vault_api.py:121-135 | one record's score: 10 for the summary, 5 per tag and 3 for the payload |
| MemoryVaultApi.ScoreAll | src/api/handlers/memory_vault_api.py:118-138 | the scoring loop builds exactly the specified matches |
| MemoryVaultApi.Ranked | src/api/handlers/memory_vault_api.py:141-144 | at most limit matches are kept, as many as there are up to the limit |
| MemoryVaultApi.RankedOrder | src/api/handlers/memory_vault_api.py:141-144 | the kept matches are matches, best score first |
| MemoryVaultApi.Seconds | src/api/handlers/memory_vault_api.py:144 | the records of the kept matches, in order |
| MemoryVaultApi.SearchResponse | src/api/handlers/memory_vault_api.py:86-155 | 422 exactly for a limit outside [1, 100]; the answer echoes the query and its total is the number of results, at most limit |
| MemoryVaultApi.SearchRanked | src/api/handlers/memory_vault_api.py:106-150 | every result scores and comes from a chosen type, best first, as many as the limit allows |
| MemoryVaultApi.EmptySearchReturnsAll | src/api/handlers/memory_vault_api.py:117-144 | the empty query returns the first limit records of the chosen types |
| MemoryVaultApi.SearchMemories | src/api/handlers/memory_vault_api.py:86-155 | the handler's answer is the specified one |
| MemoryVaultApi.Tally | src/api/handlers/memory_vault_api.py:169-185 | a successful answer has a count for every type, in order |
| MemoryVaultApi.TallyMatchesGather | src/api/handlers/memory_vault_api.py:159-189 | stats fail exactly when a listing of every type fails, with a 500 carrying the same message; the total counts the gathered records |
| MemoryVaultApi.GetStats | src/api/handlers/memory_vault_api.py:159-189 | the handler's answer is the tally over every type |
| MemoryVaultApi.TallyStops | src/api/handlers/memory_vault_api.py:172-179 | once a type's fetch has raised, the rest of the loop does not run |
| MemoryVaultApi.DeleteFrom | src/api/handlers/memory_vault_api.py:207-218 | a deletion happens in a type whose records hold the id and whose delete returned |
| MemoryVaultApi.NotFoundIff | src/api/handlers/memory_vault_api.py:207-221 | 404 exactly when every type raised an exception it passes over, lacks the id, or its delete raised such an exception |
| MemoryVaultApi.DeleteResponse | src/api/handlers/memory_vault_api.py:220-232 | success exactly for a deletion, 404 exactly when no record was found |
| MemoryVaultApi.DeleteMemory | src/api/handlers/memory_vault_api.py:193-232 | the handler's answer is that of the search over every type |
| MemoryVaultApi.ShippedVaultFails | src/api/handlers/memory_vault_api.py:46-210 | with the vault as it stands, which has no get_all, list, search and stats answer 500 and delete fails |
| MemoryVaultApi.AddMemory | src/api/handlers/memory_vault_api.py:236-279 | 400 with the vault's message exactly for an unsupported type, the vault unchanged; otherwise the new record, appended to its type's file |
| CapabilitySpecs.NewSpec | src/lib/capability_specs.py:15-44 | every key the entry leaves out takes its default: the id as display name, the ranges [0, 1], no conditions, multiplier 1.0 |
| CapabilitySpecs.DefaultRangesHandleUnit | src/lib/capability_specs.py:34-61 | an entry without ranges handles every score from 0 to 1, with or without tools |
| CapabilitySpecs.OutsideRangeRefused | src/lib/capability_specs.py:56-61 | a score below the applicable range's lower end is refused |
| CapabilitySpecs.ShouldPreferScan | src/lib/capability_specs.py:63-102 | the condition loop with its early returns decides exactly as the OR of the conditions, falling back to the capability check |
| CapabilitySpecs.NoConditionsIsCapability | src/lib/capability_specs.py:77-78 | without conditions the preference is exactly the capability check with tools meaning web search or code execution |
| CapabilitySpecs.MatchingConditionPrefers | src/lib/capability_specs.py:81-94 | any single matching condition prefers the local model whatever the ranges say |
| CapabilitySpecs.CapabilityImpliesPreference | src/lib/capability_specs.py:101-102 | handling the complexity always means preferring the local model: conditions only add reasons |
| CapabilitySpecs.InertConditionsIgnored | src/lib/capability_specs.py:82-99 | privacy-only conditions and entries that are not dicts never change the answer |
| CapabilitySpecs.SpecsOf | src/lib/capability_specs.py:135-136 | the dict holds exactly the ids that occur among the entries |
| CapabilitySpecs.IdsOf | src/lib/capability_specs.py:166-172 | the dict's keys in insertion order list each stored id exactly once |
| CapabilitySpecs.LastEntryWins | src/lib/capability_specs.py:135-136 | the spec stored under an id is built from the last entry with that id |
| CapabilitySpecs.SpecLoader.constructor | src/lib/capability_specs.py:108-142 | a missing, empty or unreadable file leaves no specs; otherwise each entry is stored under its id, in file order |
| CapabilitySpecs.SpecLoader.GetSpec | src/lib/capability_specs.py:144-153 | the stored spec for a known id, None exactly for an unknown one |
| CapabilitySpecs.SpecLoader.ListModels | src/lib/capability_specs.py:166-172 | every id with a spec, each once |
| CapabilitySpecs.HasSpecIffGetSpec | src/lib/capability_specs.py:144-164 | get_spec and has_spec agree on every id |
| ApiConfig.Walk | src/api/config.py:98-109 | a walk along a non-empty path that succeeds never lands on None, since get gives up at a missing or None segment and at a non-dict value |
| ApiConfig.WalkConcat | src/api/config.py:101-107 | walking a path in two parts is walking the first part and then the second from where it landed |
| ApiConfig.WalkOne | src/api/config.py:102-105 | a one-segment walk finds exactly the non-None value stored under the key |
| ApiConfig.Config.constructor | src/api/config.py:20-49 | a missing or unreadable file loads the defaults, and a document that loads as something false becomes the empty dict |
| ApiConfig.Config.Get | src/api/config.py:88-109 | the dot-separated key is split and followed segment by segment, with the default wherever the walk gives up |
| ApiConfig.Config.ModelMapping | src/api/config.py:111-121 | succeeds iff the mapping section is a dict; then the entry stored under the exact name, or None when there is none; otherwise AttributeError |
| ApiConfig.Config.ListAvailableModels | src/api/config.py:131-138 | succeeds iff the mapping section is a dict, listing one name per entry |
| ApiConfig.Config.IsModelAvailable | src/api/config.py:148-176 | available only for an ollama entry, or an openrouter entry with a non-empty key; a missing or false entry is unavailable; a mapping failure propagates |
| ApiConfig.ListedIffMapped | src/api/config.py:120-138 | each listed name has its entry in the mapping and an unlisted name maps to None |
| ApiConfig.OpenRouterNeedsKey | src/api/config.py:168-173 | an openrouter entry is available exactly when a non-empty API key is set |
| ApiConfig.WalkFound | src/api/config.py:102-105 | a non-None value stored under the key is what a one-segment walk finds |
| ApiConfig.DefaultMappingSection | src/api/config.py:64-69 | the defaults' mapping section holds the single granite-local entry |
| ApiConfig.DefaultModelSection | src/api/config.py:70 | the defaults' default model is "qwen-local" |
| ApiConfig.DefaultsServeGranite | src/api/config.py:51-165 | with the defaults granite-local maps to its ollama entry and is available, and the default model is "qwen-local" |
| ApiConfig.DefaultModelUnmapped | src/api/config.py:64-159 | with the defaults the default model "qwen-local" has no mapping entry and therefore reports unavailable |
| ReflectionParse.LStripLead | src/agents/reflection_agent.py:172 | the result is the suffix left after dropping every leading bullet, digit, dot, parenthesis and space |
| ReflectionParse.Step | src/agents/reflection_agent.py:151-174 | one line keeps the four lists |
| ReflectionParse.ScanAll | src/agents/reflection_agent.py:148-176 | the scan keeps the four lists |
| ReflectionParse.ScanSnoc | src/agents/reflection_agent.py:151-174 | scanning one more line is one more step |
| ReflectionParse.StepLine | src/agents/reflection_agent.py:152-174 | one pass of the loop body is exactly one step |
| ReflectionParse.ScanLines | src/agents/reflection_agent.py:148-176 | the loop with its mutable open section computes exactly the scan |
| ReflectionParse.StepItems | src/agents/reflection_agent.py:166-174 | a step adds at most the non-empty content of its own line, and only for an item line |
| ReflectionParse.ItemsFromItemLines | src/agents/reflection_agent.py:148-176 | every recorded item is the non-empty content of an item line of the reply |
| ReflectionParse.NoKeywordNoItems | src/agents/reflection_agent.py:156-174 | without any keyword line every list stays empty |
| ReflectionParse.HeaderItemRecorded | src/agents/reflection_agent.py:156-174 | a keyword line that is also an item line opens its section and is recorded there, the other lists untouched |
| ReflectionParse.SectionPersists | src/agents/reflection_agent.py:156-164 | a line without keywords leaves the open section as it was |
| ReflectionParse.LearningSection | src/agents/reflection_agent.py:157-164 | "went well" wins, then "improve", then "rule" or "pattern", then "prompt", each in both directions |
| ReflectionParse.ExtractLearnings | src/agents/reflection_agent.py:136-176 | always the four keys in order, each with its items in reply order |
| ReflectionParse.LearningsJson | src/agents/reflection_agent.py:121 | the learnings as a JSON dict with the same keys |
| ReflectionParse.DistillSection | src/agents/reflection_agent.py:350-357 | "rule" wins, then "fail", then "prompt", then "procedure" or "step", each in both directions |
| ReflectionParse.JsonBlock | src/agents/reflection_agent.py:324-327 | the block starts with "{" and ends with "}" |
| ReflectionParse.FromParsed | src/agents/reflection_agent.py:329-334 | the four keys, each with its stored value or [] when absent |
| ReflectionParse.FromLists | src/agents/reflection_agent.py:339-369 | the four keys, each with the heuristic's string list |
| ReflectionParse.Distilled | src/agents/reflection_agent.py:314-369 | the result always has the four keys rules, failures, prompts and procedures |
| ReflectionParse.ParseDistillation | src/agents/reflection_agent.py:314-369 | the parse is exactly the specified one, JSON block first and the heuristic otherwise |
| ReflectionParse.NoBlockUsesHeuristic | src/agents/reflection_agent.py:324-369 | a reply without a "}" after its first "{" is read by the line heuristic alone |
| ReflectionAgent.EpisodePrompt | src/agents/reflection_agent.py:27-99 | the prompt holds the first 500 characters of each side and the mode |
| ReflectionAgent.ReflectionPayload | src/agents/reflection_agent.py:113-122 | the payload keys in order, the first 200 characters of each side, the reply and its learnings |
| ReflectionAgent.ReflectionRecord | src/agents/reflection_agent.py:105-128 | a reflection record with confidence 0.7, a 180-day ttl, the summary and tags for the mode and tools, and the stripped reply's learnings |
| ReflectionAgent.ReflectOnEpisode | src/agents/reflection_agent.py:70-134 | a failing model call returns None and stores nothing; otherwise exactly the reflection record is appended to the reflections file and returned |
| ReflectionAgent.ReflectionLifetime | src/agents/reflection_agent.py:124-125 | pruning removes a reflection exactly once 180 days have passed since its naive creation time |
| ReflectionAgent.Recent | src/agents/reflection_agent.py:201-211 | the filter succeeds only when every creation time reads with the cutoff's awareness, and keeps exactly the records created after the cutoff |
| ReflectionAgent.RecentSucceeds | src/agents/reflection_agent.py:201-211 | when every record reads with the cutoff's awareness the filter succeeds |
| ReflectionAgent.FirstTwoRules | src/agents/reflection_agent.py:224-225 | two string rules are joined by ", " |
| ReflectionAgent.ReflectionLines | src/agents/reflection_agent.py:220-227 | at most two lines per reflection, the last being its non-empty summary |
| ReflectionAgent.Summaries | src/agents/reflection_agent.py:218-227 | at most two lines per reflection |
| ReflectionAgent.SummariesSticky | src/agents/reflection_agent.py:197-312 | once a reflection has raised the later ones change nothing |
| ReflectionAgent.BuildSummaries | src/agents/reflection_agent.py:218-227 | the summary loop builds exactly the specified lines |
| ReflectionAgent.SweepPrompt | src/agents/reflection_agent.py:43-54 | the prompt holds the episode count and the summaries |
| ReflectionAgent.FirstOf | src/agents/reflection_agent.py:264-285 | the value under the first key the dict holds, or the default when it holds none |
| ReflectionAgent.ItemText | src/agents/reflection_agent.py:246-287 | a string item is itself; any non-dict item is rendered as a string |
| ReflectionAgent.Cut | src/agents/reflection_agent.py:254-292 | a string is cut at 100 characters; only strings and lists can be sliced |
| ReflectionAgent.EntryShape | src/agents/reflection_agent.py:246-295 | the payload holds the kind's text field and the source; the summary starts with the kind's prefix; a string item is stored as it is |
| ReflectionAgent.Items | src/agents/reflection_agent.py:244-280 | at most n items; a list gives its first n elements |
| ReflectionAgent.DistilledShape | src/agents/reflection_agent.py:251-295 | the record carries the kind's type, tags and confidence, the entry's payload and summary, and no expiry |
| ReflectionAgent.Entries | src/agents/reflection_agent.py:244-295 | one entry per item, in order |
| ReflectionAgent.StoreRun | src/agents/reflection_agent.py:244-312 | at most one addition per entry, all of them when none raised |
| ReflectionAgent.StoreRunSticky | src/agents/reflection_agent.py:197-312 | once an entry has raised the later ones change nothing |
| ReflectionAgent.StoreKind | src/agents/reflection_agent.py:243-295 | no kind stores more than its limit of 5, 3 or 3 |
| ReflectionAgent.Prepare | src/agents/reflection_agent.py:197-240 | a sweep that ends early is not completed; a ready one has between min_episodes and 100 episodes and at most 100 reflections |
| ReflectionAgent.Filtered | src/agents/reflection_agent.py:201-213 | the date filter keeps at most the listed records, and a ready sweep has at least min_episodes |
| ReflectionAgent.Analyze | src/agents/reflection_agent.py:213-240 | below min_episodes the sweep is skipped; otherwise it carries the counts of the filtered records |
| ReflectionAgent.StoreKindsSticky | src/agents/reflection_agent.py:197-312 | once a store has raised the later kinds change nothing |
| ReflectionAgent.StoreOne | src/agents/reflection_agent.py:251-257 | one vault add of a distilled record to its kind's file |
| ReflectionAgent.StoreAt | src/agents/reflection_agent.py:244-257 | one pass of the store loop adds item i's record, or stops the run with its error |
| ReflectionAgent.StoreItems | src/agents/reflection_agent.py:244-295 | the store loop of one kind does exactly the specified run |
| ReflectionAgent.StoreDistilled | src/agents/reflection_agent.py:243-295 | one kind of the distilled dict stored through the vault, as specified |
| ReflectionAgent.PrepareSweep | src/agents/reflection_agent.py:197-240 | the sweep up to the parse reads the vault and changes nothing |
| ReflectionAgent.PrepareListed | src/agents/reflection_agent.py:201-240 | the sweep from the two listings on is the specified one |
| ReflectionAgent.FilterSweep | src/agents/reflection_agent.py:201-240 | the date filter then the analysis, as specified |
| ReflectionAgent.AnalyzeSweep | src/agents/reflection_agent.py:213-240 | the sweep after the date filter is the specified one |
| ReflectionAgent.StoreSweep | src/agents/reflection_agent.py:242-295 | the three store loops leave the vault and error of the specified stores |
| ReflectionAgent.DistillationSweep | src/agents/reflection_agent.py:178-312 | the result and the vault are exactly those of the specified sweep, including its failure at the closing log line |
| ReflectionAgent.Closing | src/agents/reflection_agent.py:240-308 | completed exactly when the store loops raised nothing and the rules, prompts and procedures all have a length; a failure after error-free stores is the log line's TypeError |
| ReflectionAgent.CompletedCountsLoggable | src/agents/reflection_agent.py:297-308 | a completed sweep's rules, prompts and procedures all have a length |
| ReflectionAgent.UnloggableFails | src/agents/reflection_agent.py:240-311 | a ready sweep whose distilled rules, prompts or procedures is None, a boolean or a number fails, keeping what was stored |
| ReflectionAgent.StoreRunShape | src/agents/reflection_agent.py:244-257 | a run of stores only appends records of its kind to its kind's file |
| ReflectionAgent.RulesAppended | src/agents/reflection_agent.py:243-257 | after the rules, the vault differs only by appended rules |
| ReflectionAgent.PromptsAppended | src/agents/reflection_agent.py:260-276 | storing prompt patterns after the rules adds only prompt records |
| ReflectionAgent.ProceduresAppended | src/agents/reflection_agent.py:279-295 | storing procedures last adds only checklist records |
| ReflectionAgent.StoreAllShape | src/agents/reflection_agent.py:242-295 | the three kinds' stores together only append records of their kinds to their own files |
| ReflectionAgent.SweepOnlyAppends | src/agents/reflection_agent.py:178-312 | a sweep only appends to the semantic, prompt and checklist files: at most 5 rules, 3 prompt patterns and 3 procedures, each tagged with its kind and distilled |
| ReflectionAgent.EarlyEndsChangeNothing | src/agents/reflection_agent.py:213-215 | a skipped sweep leaves the vault as it was |
| ReflectionAgent.CompletedBounds | src/agents/reflection_agent.py:203-308 | a completed sweep analysed at least min_episodes episodes and at most 100 of each kind |
| ReflectionAgent.SweepFailsOnVaultTimes | src/agents/reflection_agent.py:199-312 | as written, once one naive vault episode is listed, the aware cutoff makes the sweep fail with the TypeError and store nothing |
| ReflectionAgent.SweepNaiveCutoff | src/agents/reflection_agent.py:199-213 | with a naive cutoff the date filter passes vault-written records and the sweep goes on to analyse the recent ones |
| ModelConfig.CapabilityOf | src/models/model_config.py:8-16 | a value accepted by the enum is exactly the string of the member it names |
| ModelConfig.CapabilityRoundTrip | src/models/model_config.py:8-16 | every capability's value names that capability back |
| ModelConfig.ProviderOf | src/models/model_config.py:19-25 | a value accepted by the enum is exactly the string of the provider it names |
| ModelConfig.ProviderRoundTrip | src/models/model_config.py:19-25 | every provider's value names that provider back |
| ModelConfig.NewConfig | src/models/model_config.py:26-52 | the defaulted fields take the dataclass defaults: "fast", zero rates, local, priority 100, floor 0.0, cap 1.0, active |
| ModelConfig.EstimatedCost | src/models/model_config.py:90-102 | a free model costs nothing, and non-negative rates and counts give a non-negative cost |
| ModelConfig.CostEffectiveBoundsEstimate | src/models/model_config.py:76-102 | a query whose total tokens pass is_cost_effective costs no more than the per-query cap however its tokens split between input and output |
| ModelConfig.CapabilityValues | src/models/model_config.py:114 | the capabilities' string values, in order |
| ModelConfig.ToDict | src/models/model_config.py:104-124 | the dictionary has the thirteen keys of to_dict in their order |
| ModelConfig.CapabilitiesOf | src/models/model_config.py:140 | an accepted list converts element by element, each element the value of its capability |
| ModelConfig.RequiredOf | src/models/model_config.py:137-141 | a success means all five keys without a default are present, and a missing model_id raises |
| ModelConfig.Defaulted | src/models/model_config.py:142-149 | eight values, each an absent key's default: "fast", 0.0, 0.0, True, 100, 0.0, 1.0, True |
| ModelConfig.Build | src/models/model_config.py:136-150 | a built config carries the provider, the capabilities and each defaulted field's value as read |
| ModelConfig.FromDict | src/models/model_config.py:127-150 | a success needs the five required keys, and each absent optional key gives its dataclass default |
| ModelConfig.CapabilitiesRoundTrip | src/models/model_config.py:114-140 | the capability list to_dict writes reads back as the same capabilities |
| ModelConfig.ConfigKeysDistinct | src/models/model_config.py:110-124 | no key of the dictionary form repeats |
| ModelConfig.ToDictLookup | src/models/model_config.py:110-124 | each key of to_dict holds the value written under it |
| ModelConfig.ToDictHolds | src/models/model_config.py:104-124 | to_dict writes every field of the config under its key |
| ModelConfig.RequiredHolds | src/models/model_config.py:137-141 | a dictionary holding a config's values reads back that config's five required values |
| ModelConfig.ValueInjective | src/models/model_config.py:8-16 | two capabilities with the same value are the same capability |
| ModelConfig.FromDictCapabilities | src/models/model_config.py:140 | a config read from a dictionary has exactly the capabilities of the dictionary's list, converted one by one |
| ModelConfig.HasCapabilityFromDict | src/models/model_config.py:54-140 | a config read from a dictionary has a capability exactly when the dictionary's list names it |
| ModelConfig.DefaultedHolds | src/models/model_config.py:142-149 | a dictionary holding a config's values reads back that config's optional values |
| ModelConfig.BuildValues | src/models/model_config.py:136-150 | building from a config's own values gives the config back |
| ModelConfig.FromDictHolds | src/models/model_config.py:127-150 | any dictionary holding a config's values under its keys reads back as that config |
| ModelConfig.FromDictToDict | src/models/model_config.py:104-150 | from_dict(to_dict(c)) is c again |
| RageRules.ReactionOf | src/feedback/rage_trainer.py:17-47 | the reaction an emoji names, or none for an emoji outside the table |
| RageRules.EmojiOf | src/feedback/rage_trainer.py:162 | the inverted table gives each reaction type's emoji and nothing for any other type |
| RageRules.EmojiRoundTrip | src/feedback/rage_trainer.py:17-162 | inverting the table gives back each reaction's own emoji and the emoji its reaction |
| RageRules.Template | src/feedback/rage_trainer.py:73-78 | an unknown reaction type gets the generic "User rejected: " template with nothing after the quote |
| RageRules.GenerateRule | src/feedback/rage_trainer.py:71-78 | the rule quotes the first 100 characters of the text and starts with its type's template; the generic rule is exactly its prefix and the quote |
| RageRules.Surrounded | src/feedback/rage_trainer.py:74-78 | a quote placed between two texts occurs in the result, which starts with the first |
| RageRules.Offending | src/feedback/rage_trainer.py:48 | the last response unless it is missing or empty, else the context |
| RageRules.RagePayload | src/feedback/rage_trainer.py:55-61 | the stored payload has the rule, source rage_training, the reaction type, the first 200 characters of the offense and the weight, in that order |
| RageRules.RageRecord | src/feedback/rage_trainer.py:51-66 | the checklist record a reaction adds: confidence 1.0, no ttl, the three tags, the payload and the summary with the rule's first 100 characters |
| RageRules.TakeTake | src/feedback/rage_trainer.py:51-78 | cutting at 500 characters and then at 100 is cutting at 100 |
| RageRules.RuleQuotesOffense | src/feedback/rage_trainer.py:51-78 | the rule of a reaction quotes the first 100 characters of the offending text itself |
| RageRules.NeverRecord | src/feedback/rage_trainer.py:117-130 | the permanent checklist record with rule "NEVER " + what and source never_command |
| RageRules.RuleLines | src/feedback/rage_trainer.py:94-99 | one bullet line per rule, its payload rule or the empty string |
| RageRules.RegenFor | src/feedback/rage_trainer.py:80-106 | no context exactly without a last response; otherwise the first 500 characters of it, the flag and at most the ten newest rage rules as bullets |
| RageRules.InWindow | src/feedback/rage_trainer.py:145-149 | the filter succeeds exactly when every creation time parses and is comparable with the cutoff, keeping exactly the records created after it; otherwise ValueError or TypeError |
| RageRules.InWindowMixed | src/feedback/rage_trainer.py:148 | a first record whose awareness differs from the cutoff's raises TypeError |
| RageRules.Occurrences | src/feedback/rage_trainer.py:155-158 | a type's count is zero exactly when it does not occur |
| RageRules.BumpLookup | src/feedback/rage_trainer.py:158 | counting a type adds one to its count or sets it to one when new, appending the key, and touches no other key |
| RageRules.TallyCounts | src/feedback/rage_trainer.py:155-158 | every type seen is counted as often as it occurs and no other key is present |
| RageRules.TallyStep | src/feedback/rage_trainer.py:156-158 | one counting step keeps the tally exact |
| RageRules.LastOccurrence | src/feedback/rage_trainer.py:156-158 | the last type counts once more for itself |
| RageRules.TallyNonEmpty | src/feedback/rage_trainer.py:155-158 | the counts are non-empty when there was something to count |
| RageRules.TopIndex | src/feedback/rage_trainer.py:161 | max keeps the first entry with the largest count |
| RageRules.SummaryOf | src/feedback/rage_trainer.py:151-175 | the no-rage message exactly for an empty week |
| RageRules.Types | src/feedback/rage_trainer.py:157 | the reaction type of each record, in order |
| RageRules.TallyDistinct | src/feedback/rage_trainer.py:155-158 | the counts never repeat a key |
| RageRules.DistinctLookup | src/feedback/rage_trainer.py:161 | with distinct keys the value found under an entry's key is that entry's |
| RageRules.TopIsMostFrequent | src/feedback/rage_trainer.py:155-175 | the top type occurs in the week and as often as it is counted, no type occurs more often, and the worst offense is the newest record's, cut at 150 |
| RageRules.Spared | src/feedback/rage_trainer.py:192-210 | a reset keeps at most the file's lines |
| RageRules.Wiped | src/feedback/rage_trainer.py:207-208 | no more records are deleted than the file holds |
| RageRules.ResetAccounting | src/feedback/rage_trainer.py:192-210 | every line is either written back or counted as deleted |
| RageRules.SparedMembers | src/feedback/rage_trainer.py:196-210 | a line survives exactly when it is malformed or its source is not a learned one |
| RageRules.ResetUpToUntouched | src/feedback/rage_trainer.py:186-214 | a type not yet visited keeps its original file |
| RageRules.ResetUpToVisited | src/feedback/rage_trainer.py:186-214 | a visited type holds its spared lines and the vault keeps the same files |
| RageRules.ResetEffect | src/feedback/rage_trainer.py:177-217 | after a reset the four rewritten files hold no learned record and keep the rest, every other file untouched |
| RageTrainer.WeekBefore | src/feedback/rage_trainer.py:141 | seven days before now, with now's awareness |
| RageTrainer.WeeklyOf | src/feedback/rage_trainer.py:135-175 | the summary raises exactly when the week filter raises |
| RageTrainer.WeeklyRaisesOnVaultTimes | src/feedback/rage_trainer.py:141-148 | as written, the aware clock against the vault's naive times makes the summary raise TypeError |
| RageTrainer.WeeklyNaiveClock | src/feedback/rage_trainer.py:141-175 | with a naive clock the summary never raises on vault records and covers exactly those created within the week |
| RageTrainer.FormatWeekly | src/feedback/rage_trainer.py:220-229 | the no-rage message as is; otherwise a message ending with the quoted worst offense |
| RageTrainer.Trainer.constructor | src/feedback/rage_trainer.py:23-27 | a new trainer has no last response, no time and no pending regeneration |
| RageTrainer.Trainer.CaptureResponse | src/feedback/rage_trainer.py:29-32 | the response and its time are kept |
| RageTrainer.Trainer.RecordReaction | src/feedback/rage_trainer.py:34-69 | an unknown emoji writes nothing and answers ""; a known one appends exactly one rage record to the checklist file |
| RageTrainer.Trainer.HandleNeverCommand | src/feedback/rage_trainer.py:108-133 | one permanent NEVER rule appended to the checklist file, and the reply |
| RageTrainer.Trainer.HandleRegen | src/feedback/rage_trainer.py:80-106 | the regeneration context of the last response and the rage rules listed |
| RageTrainer.Trainer.WeeklySummary | src/feedback/rage_trainer.py:135-175 | the counting loop gives exactly the specified summary |
| RageTrainer.Trainer.NuclearReset | src/feedback/rage_trainer.py:177-217 | the four files rewritten without their learned records; the reply gives how many went |
| RageTrainer.ResetLines | src/feedback/rage_trainer.py:192-210 | the scan of one file gives the lines written back and the learned records dropped |
| RageTrainer.ResetNext | src/feedback/rage_trainer.py:186-214 | one more type rewritten: its file, if present, loses its learned records and they are counted |
| RageTrainer.Rebuilt | src/storage/memory_vault.py:73-83 | add given a record's own fields builds that same record |
| RageTrainer.ResetStep | src/feedback/rage_trainer.py:194-210 | one more line is written back unless it is a learned record, which is counted |
| RageTrainer.TypesSnoc | src/feedback/rage_trainer.py:156-157 | one more record adds its type |
| RageTrainer.TallySnoc | src/feedback/rage_trainer.py:156-158 | counting one more type is one counting step |
| RageTrainer.ListedChecklist | src/feedback/rage_trainer.py:93-144 | listing the checklist type reads exactly the checklist file |
| RageTrainer.ReactionFeedsRegen | src/feedback/rage_trainer.py:53-97 | a reaction just recorded is the newest rule the next regeneration applies |
| UserProfile.ProgressPercentage | src/models/user_profile.py:40-44 | zero for a zero target; otherwise the percentage p with p * target == current * 100 |
| UserProfile.OnTrackIffComplete | src/models/user_profile.py:46-48 | for a positive target, a goal is on track exactly when its progress has reached 100 percent |
| UserProfile.FirstNamed | src/models/user_profile.py:88-100 | the first position whose name equals the wanted one ignoring case, and None exactly when no name matches |
| UserProfile.NamesOf | src/models/user_profile.py:90-97 | the names of the schedules or goals, in order |
| UserProfile.Profile.constructor | src/models/user_profile.py:62-71 | a new profile has the id, both stamps at now, no preferences, schedules or goals and an empty key hash |
| UserProfile.Profile.AddSchedule | src/models/user_profile.py:73-76 | exactly one schedule more, at the end, the update stamp moved to now, and nothing else changed |
| UserProfile.Profile.AddGoal | src/models/user_profile.py:78-81 | exactly one goal more, at the end, the update stamp moved to now, and nothing else changed |
| UserProfile.Profile.UpdatePreference | src/models/user_profile.py:83-86 | the key now holds the value, every other key keeps its own, the stamp moves to now and nothing else changes |
| UserProfile.Profile.GetScheduleByName | src/models/user_profile.py:88-93 | the first schedule whose name matches ignoring case, else None |
| UserProfile.Profile.GetGoalByName | src/models/user_profile.py:95-100 | the first goal whose name matches ignoring case, else None |
| Adapter.BaseValues | src/api/adapter.py:48-62 | exactly one value per base key |
| Adapter.Extras | src/api/adapter.py:65-69 | tools and tool_choice are copied exactly when the request has them, in that order |
| Adapter.DropNulls | src/api/adapter.py:72-74 | the kept entries are exactly the entries without a None value, none of them None |
| Adapter.DropNullsLookup | src/api/adapter.py:72-74 | dropping None values keeps every other key's value |
| Adapter.ConvertRequest | src/api/adapter.py:31-76 | no key of the converted request holds None |
| Adapter.OutKeysDistinct | src/api/adapter.py:51-69 | the keys written are all different |
| Adapter.ToolKeysNotBase | src/api/adapter.py:51-69 | the tool keys are not base keys |
| Adapter.UnfilteredKeys | src/api/adapter.py:51-69 | before filtering the keys are the base keys followed by the tool keys the request has, all distinct |
| Adapter.BaseField | src/api/adapter.py:51-74 | each base key holds its value exactly when that value is not None; each sampling parameter is present exactly when the request gives it a value |
| Adapter.ExtraField | src/api/adapter.py:65-74 | tools and tool_choice are present exactly when the request has them with a value that is not None |
| Adapter.OtherField | src/api/adapter.py:51-74 | no key outside the base and tool keys appears |
| Adapter.ConvertRequestDefaults | src/api/adapter.py:48-62 | the provider and model are passed through, messages default to [] and stream to false |
| Adapter.ResponseMessage | src/api/adapter.py:106-129 | the assistant message holds the role and the content, and the tool calls exactly when the orchestrator gave them |
| Adapter.Usage | src/api/adapter.py:113-117 | each count as given, 0 when absent |
| Adapter.ResponseChoice | src/api/adapter.py:104-111 | index 0, the message and the finish reason defaulting to "stop" |
| Adapter.ConvertResponse | src/api/adapter.py:78-131 | the seven keys in order: the id, the object kind, the creation time, the model, one choice, the usage block and the metadata with the cost (default 0) and the model used (default the requested model) |
| Adapter.ConvertResponseShape | src/api/adapter.py:95-129 | exactly one choice with index 0, an assistant message with the content, finish reason "stop" unless given, tool calls exactly when given |
| Adapter.UsageDefaults | src/api/adapter.py:113-117 | an absent count reads as 0 |
| Adapter.StreamDelta | src/api/adapter.py:162-178 | the content exactly when the delta is truthy, the role exactly on a chunk marked first, the tool calls exactly when given |
| Adapter.ConvertStreamChunk | src/api/adapter.py:133-180 | a chunk object with one choice of index 0, the delta and the chunk's finish reason, None when absent |
| Adapter.Dicts | src/api/adapter.py:196-227 | the messages as dicts when every item is one; otherwise some item is not |
| Adapter.DictsObjs | src/api/adapter.py:196-227 | reading back dicts wrapped as JSON objects gives them back |
| Adapter.LastUser | src/api/adapter.py:202-205 | the position of the last user message, and none exactly when no message is a user message |
| Adapter.QueryIsLastUser | src/api/adapter.py:196-208 | no messages is its own error; a query exists exactly when the last user message has truthy content, and it is that content |
| Adapter.QueryText | src/api/adapter.py:201-208 | the reversed loop computes exactly the specified query or error |
| Adapter.RoleContent | src/api/adapter.py:223-227 | each message as its role and content with defaults "user" and "" |
| Adapter.SeedHistory | src/api/adapter.py:223-227 | the seeding loop adds every message but the last, with the defaults |
| Adapter.MessageTokens | src/api/adapter.py:248-251 | a message's token_count when it is a number, else a quarter of the length of its content's text, rounded down; None cannot be summed |
| Adapter.SumOkFailsAt | src/api/adapter.py:248-252 | a failed sum fails with one of its counts' errors |
| Adapter.SumOkOk | src/api/adapter.py:248-252 | the sum succeeds exactly when every count does |
| Adapter.SumOkConcat | src/api/adapter.py:248-252 | the sum of a concatenation is the sum of the sums |
| Adapter.PromptTokens | src/api/adapter.py:248-252 | the estimate only fails with TypeError |
| Adapter.PromptTokensOk | src/api/adapter.py:248-252 | the estimate raises exactly when some message's count does |
| Adapter.PromptTokensConcat | src/api/adapter.py:248-252 | the estimate is additive over a split conversation |
| Adapter.CompletionTokens | src/api/adapter.py:253 | the reply's own count when non-zero, else at most its length |
| Adapter.Totals | src/api/adapter.py:255-263 | the content, finish reason "stop", both counts and their sum as the total |
| Adapter.Checked | src/api/adapter.py:196-291 | passed messages are non-empty and their query is the one found |
| Adapter.CheckedObjs | src/api/adapter.py:196-208 | a non-empty list of dicts is checked by its query alone |
| Adapter.EmptyLastUser | src/api/adapter.py:202-208 | a last user message without content leaves no query, even when an earlier one had one |
| Adapter.InvokeOrchestrator | src/api/adapter.py:182-263 | the two loops of the call compute exactly the specified invocation |
| Adapter.InvokedTotals | src/api/adapter.py:248-263 | an answered call reports a total equal to its prompt count plus its completion count |
| Adapter.InvokedRaises | src/api/adapter.py:230-233 | once the messages pass, what the orchestrator raises is what the call raises |
| Adapter.PickBackend | src/api/adapter.py:301-307 | the local connector only for ollama when there is one, else the external connector named by the provider |
| Adapter.PieceChunks | src/api/adapter.py:314-322 | one chunk per streamed piece, in order |
| Adapter.StreamChecksAlike | src/api/adapter.py:196-291 | the streaming call refuses a request for exactly the reasons the plain call does, before streaming anything |
| Adapter.StreamNeverSendsRole | src/api/adapter.py:319-328 | no streamed chunk is marked first, so no converted chunk carries the role; an unbroken stream ends with a "stop" chunk with an empty delta |
| Adapter.PieceChunksNoRole | src/api/adapter.py:319-322 | no piece chunk names a role |
| Adapter.FinalNoRole | src/api/adapter.py:325-328 | the final chunk adds no role |
| Adapter.FinalChunkFacts | src/api/adapter.py:325-328 | the final chunk finishes with "stop" and carries neither content nor role |
| ChatHandler.RequestId | src/api/handlers/chat.py:17-23 | the id is the "chatcmpl-" prefix followed by 24 hex digits |
| ChatHandler.RequestIdInjective | src/api/handlers/chat.py:23 | two uuids give the same id exactly when their first 24 digits agree |
| ChatHandler.MessageDump | src/api/handlers/chat.py:80-159 | a dumped message holds its role and its content exactly when the content is set |
| ChatHandler.Dumps | src/api/handlers/chat.py:80-159 | one dump per message, in order |
| ChatHandler.Dump | src/api/handlers/chat.py:80-159 | the dumped request holds the dumped messages |
| ChatHandler.ValidationOrder | src/api/handlers/chat.py:48-149 | no messages, then no user message, then an unknown model listing the available names, then an unavailable model; a request passes only with a user message and an available listed model |
| ChatHandler.MessageChecksFirst | src/api/handlers/chat.py:48-134 | the message checks come first and do not depend on the configuration or the key |
| ChatHandler.ChunkItems | src/api/handlers/chat.py:166-178 | one converted chunk per orchestrator chunk, in order |
| ChatHandler.ChunkItemsSnoc | src/api/handlers/chat.py:166-178 | converting one more chunk appends its item |
| ChatHandler.ProcessStream | src/api/handlers/chat.py:107-187 | the streaming loop yields exactly the specified stream |
| ChatHandler.PathsValidateAlike | src/api/handlers/chat.py:45-146 | both paths refuse a request with the same error, and the stream refuses before yielding anything |
| ChatHandler.LastUserMessage | src/api/handlers/chat.py:52-132 | the position of the last user message, none exactly when there is no user message |
| ChatHandler.SameLastUser | src/api/handlers/chat.py:52-132 | two scans agreeing on who is a user find the same last user message |
| ChatHandler.DumpedLastUser | src/api/handlers/chat.py:79-87 | the adapter reads the dumped messages as dicts and finds the same last user message |
| ChatHandler.LastUserWithoutContent | src/api/handlers/chat.py:79-95 | a validated request whose last user message has no content fails in the orchestrator and is answered as a generation failure |
| ChatHandler.GenerationFails | src/api/handlers/chat.py:86-95 | an orchestrator refusal after validation is answered as a generation failure carrying its text |
| ChatHandler.OrchestratorRaises | src/api/handlers/chat.py:86-95 | what the orchestrator raises on a validated request is answered as a generation failure carrying it |
| ChatHandler.UsageAddsUp | src/api/handlers/chat.py:98-104 | an answered request carries its id and a usage total equal to its prompt count plus its completion count |
| ChatHandler.StreamShape | src/api/handlers/chat.py:165-181 | a stream never announces the assistant role, and an unbroken one ends with "[DONE]" right after the last chunk |
| ChatHandler.NoRoleDone | src/api/handlers/chat.py:181 | the marker adds no role |
| ChatHandler.ItemsAnnounceNoRole | src/api/handlers/chat.py:166-178 | converted chunks without a role announce none |
| ChatHandler.ChunkDelta | src/api/handlers/chat.py:168-178 | a chunk whose delta has no role converts to one that announces none |
| ChatgptImporter.KeptOf | src/tools/chatgpt_importer.py:80-87 | a node contributes at most one message, from the user or the assistant and with non-empty joined text |
| ChatgptImporter.WalkedKept | src/tools/chatgpt_importer.py:74-89 | every kept message is the user's or the assistant's and has text |
| ChatgptImporter.Ids | src/tools/chatgpt_importer.py:74-89 | the walk visits only nodes of the mapping |
| ChatgptImporter.OutOfFuelIds | src/tools/chatgpt_importer.py:75-89 | a walk that runs out of fuel has visited one more live node than its fuel |
| ChatgptImporter.WalkRepeats | src/tools/chatgpt_importer.py:75-89 | with one visit per node as fuel, running out means the walk revisited a node: the parent chain is a cycle and the source loop never ends |
| ChatgptImporter.WalkEndsDistinct | src/tools/chatgpt_importer.py:75-89 | a walk that ends within one visit per node visits no node twice; with WalkRepeats, the walk is None exactly when the chain revisits a node |
| ChatgptImporter.EndedIds | src/tools/chatgpt_importer.py:75-89 | a walk that ends within n visits has visited at most n nodes |
| ChatgptImporter.IdsShift | src/tools/chatgpt_importer.py:75-89 | the walk from the k-th node visited is the rest of the walk |
| ChatgptImporter.IdsPrefix | src/tools/chatgpt_importer.py:75-89 | a shorter walk is the longer one cut at its length, or the whole walk when that ended first |
| ChatgptImporter.Reverse | src/tools/chatgpt_importer.py:92 | the reversal has the same length |
| ChatgptImporter.ReverseIndex | src/tools/chatgpt_importer.py:92 | the reversal holds the i-th element from the end at i |
| ChatgptImporter.WalkedStep | src/tools/chatgpt_importer.py:75-89 | one step keeps the node's message and walks on from its parent |
| ChatgptImporter.Extract | src/tools/chatgpt_importer.py:68-92 | the walk loop then the reversal compute exactly the specified messages, None for a cycle |
| ChatgptImporter.PairIndicesSound | src/tools/chatgpt_importer.py:101-105 | the pair indices are exactly the user messages answered by the next message from the assistant, increasing |
| ChatgptImporter.PairStep | src/tools/chatgpt_importer.py:101-117 | one more index adds its episode and its text exactly when it starts a pair |
| ChatgptImporter.PairsDisjoint | src/tools/chatgpt_importer.py:101-105 | pairs never share a message, so at most about half the messages start one |
| ChatgptImporter.Episodes | src/tools/chatgpt_importer.py:101-115 | one episode per pair |
| ChatgptImporter.EpisodesEpisodic | src/tools/chatgpt_importer.py:106-114 | every pair goes to the episodic file |
| ChatgptImporter.EpisodeAt | src/tools/chatgpt_importer.py:101-114 | the i-th episode is built from the i-th pair's two messages |
| ChatgptImporter.ExtractionPrompt | src/tools/chatgpt_importer.py:14-30 | the prompt holds the conversation text after its fixed head |
| ChatgptImporter.Items | src/tools/chatgpt_importer.py:138-156 | at most one addition per item, and all of them exactly when no slice raised |
| ChatgptImporter.ItemsSound | src/tools/chatgpt_importer.py:138-156 | each addition is built from its own item's first 50 characters |
| ChatgptImporter.ListSplit | src/tools/chatgpt_importer.py:138-156 | the rules are stored only when every preference was, and the counters count each kind |
| ChatgptImporter.ImportedStopsAt | src/tools/chatgpt_importer.py:75 | a conversation whose parent chain is a cycle ends the import |
| ChatgptImporter.CountOf | src/tools/chatgpt_importer.py:52-58 | a type's count is at most the number of additions |
| ChatgptImporter.CountOfConcat | src/tools/chatgpt_importer.py:52-58 | counting is additive over concatenation |
| ChatgptImporter.ImportedGrows | src/tools/chatgpt_importer.py:63-161 | importing more conversations keeps every earlier addition and lowers no counter |
| ChatgptImporter.SkippedConversation | src/tools/chatgpt_importer.py:94-95 | a conversation without kept messages is not counted and adds nothing |
| ChatgptImporter.ConversationShape | src/tools/chatgpt_importer.py:99-122 | one episode per pair first; the analysis runs only past 500 characters of pair text, on at most its first 4000 |
| ChatgptImporter.OneTypeCount | src/tools/chatgpt_importer.py:52-58 | additions all of one type count only as that type |
| ChatgptImporter.EpisodesStats | src/tools/chatgpt_importer.py:115 | the pairing loop counts only episodes, one per pair |
| ChatgptImporter.StatsOfConcat | src/tools/chatgpt_importer.py:52-58 | the counters are additive over concatenation |
| ChatgptImporter.ItemsStats | src/tools/chatgpt_importer.py:146-156 | preference items count as preferences and rule items as rules |
| ChatgptImporter.Importer.constructor | src/tools/chatgpt_importer.py:35-37 | the importer holds the given vault and model, with nothing logged yet |
| ChatgptImporter.Importer.AddOne | src/tools/chatgpt_importer.py:125-155 | one add call appends exactly that record to its file |
| ChatgptImporter.Importer.AddPair | src/tools/chatgpt_importer.py:106-114 | one add_episode call appends exactly the pair's episode |
| ChatgptImporter.Importer.AddNext | src/tools/chatgpt_importer.py:125-155 | the addition is logged as the next one |
| ChatgptImporter.Importer.PairNext | src/tools/chatgpt_importer.py:106-114 | the episode is logged as the next addition |
| ChatgptImporter.Importer.PairAt | src/tools/chatgpt_importer.py:101-117 | one pass of the pairing loop stores and appends exactly when the two messages are a pair |
| ChatgptImporter.Importer.StoreEpisodes | src/tools/chatgpt_importer.py:99-117 | the pairing loop adds exactly the episodes and builds exactly the pair text |
| ChatgptImporter.Importer.StoreItems | src/tools/chatgpt_importer.py:138-156 | the loop adds the items' records up to the first whose slice raises |
| ChatgptImporter.Importer.StoreRules | src/tools/chatgpt_importer.py:148-156 | the rule loop adds exactly the rule records |
| ChatgptImporter.Importer.StoreLists | src/tools/chatgpt_importer.py:138-156 | the preference loop, then the rule loop when it finished, with their counters |
| ChatgptImporter.Importer.StoreSummary | src/tools/chatgpt_importer.py:124-136 | the summary's record exactly when the summary is truthy |
| ChatgptImporter.Importer.StoreAnalysis | src/tools/chatgpt_importer.py:124-156 | the summary, then the preferences, then the rules, with their counters |
| ChatgptImporter.Importer.StoreConversation | src/tools/chatgpt_importer.py:99-159 | one conversation's episodes then, past the threshold, its analysis, with the counters of what was added |
| ChatgptImporter.Importer.ImportOne | src/tools/chatgpt_importer.py:97-159 | a conversation with messages is counted and stored |
| ChatgptImporter.Importer.ImportAt | src/tools/chatgpt_importer.py:68-159 | one pass of the conversation loop after its walk, as specified |
| ChatgptImporter.Importer.ProcessConversations | src/tools/chatgpt_importer.py:50-161 | the counters are those of every addition, and the vault holds every addition in order; None exactly when a conversation's walk revisits a node within one visit per node, which is a cycle in its parent chain |

## Left out

- The `to_dict` methods of Schedule, Goal and UserProfile (src/models/user_profile.py:21-31, 50-61, 102-112): plain field-by-field serialisation with clock formatting; only the fields' updates are modelled.
- ConversationSession.to_dict (src/models/conversation.py:160-177) and the topic-embedding field: serialisation with clock formatting, not modelled.
- ModelConfig.Build: checks each field's JSON type (string id, name and speed category, an integral context window and priority, numeric rates, boolean flags), where the Python dataclass stores whatever value it is given; `"model_id": 7` or `"context_window": 4096.5` gives a config in Python and an Err here.
- RoutingDecision.to_dict (src/models/model_config.py:154-175): plain serialisation, not modelled.
- CapabilitySpecs.SpecLoader.constructor: an entry that raises while being read (a spec that is not a dict) keeps, in Python, the entries stored before it; the model takes the entries already decoded and treats an unreadable file as no entries. The descriptive fields (description, strengths, benchmarks, personality) are not modelled because no routing rule reads them.
- QueryAnalyzer.RawScore and QueryAnalyzer.ComplexityScore: scores are exact reals, where Python adds floats. At a routing boundary the two disagree. Take a query with one capability, at least two multi-hop terms, at least two reasoning terms and more than 50 words: in Python the float sum is 0.8499999999999999, which routes to Sonnet at `< 0.85` (src/core/orchestrator.py:486); the model computes exactly 0.85 and takes the Opus branch.
- The embedding model and cosine similarity (src/core/query_analyzer.py:19-104, 155-191): the embedding enters as a value and the similarity as a function parameter; the regex detectors are a `search` parameter over the literal patterns.
- Floating point: costs, scores, rates, token estimates and times are exact `real`. Python adds and divides binary floats, so a sum or a quotient can differ in the last place, and a comparison at a boundary can then go the other way. The next line gives one that matters.
- Case folding: `Text.Lower` folds only ASCII letters. Python's `str.lower()`, and the `re.IGNORECASE` matching of the capacity and source patterns, also fold non-ASCII letters (for example "É"), which the model leaves as they are. Unicode normalisation and encodings are not modelled either.
- In-place mutation and aliasing: several operations mutate a caller's object, and the model returns a new value instead. `remember` updates the caller's `MemoryItem` (memory/store.py:384-415). `ResponsePostProcessor.process` writes into the caller's `metadata` dict (src/core/response_processor.py). `ConversationSession.add_to_context` writes `timestamp` and `token_count` into the caller's message dict (src/models/conversation.py:111-119). `_task_battery_pack_energy` writes into the caller's `variables` dict (src/tools/code_exec_wrapper.py:235-264). A caller that holds one of these objects and reads it again afterwards is not modelled.
- Exception texts: where Python raises, most members give an error carrying the exception's class name ("TypeError", "KeyError", "AttributeError", "ValueError"), not Python's message text. Some give a short description instead, which is not Python's `str(e)` either: the Verification decoders ("'verified_specs' is not a dict", "sources are not dicts" and the like, where Python raises AttributeError or TypeError), PlanAnalyzer's step decoding ("field input is not a dict", "steps is not a list of dicts"), ModelConfig.RequiredOf ("KeyError: model_id" and the like), the metadata-filter error of MemoryStore.PassesFilters, and Json.AsReal and Json.AsInt, whose texts are the leading words of `float()`'s and `int()`'s messages. The sweep's date filter (ReflectionAgent.Recent) reports `str(e)` for its KeyError ("'created_at'") and ValueError. Handlers that embed `str(e)` in a message embed the model's text. The texts of the exceptions the code raises itself, such as the API validation messages, are modelled.
- Clock and timestamp formats: the clock is a parameter (`now`), and record ids and creation times come from a `stamp` function. ISO-8601 strings are read through a `DateParse` parameter that reports the instant and whether it is naive or UTC-aware. The text that `isoformat()`, `strftime` and `int(datetime.now().timestamp())` produce is not modelled.
- FTS5: the optional SQLite FTS5 table of the memory store and its `MATCH` query (memory/store.py:174-181, 210-216, 238, 251-262) are not modelled. `query_text_match` is modelled by its token-overlap path (memory/store.py:264-274), which the store falls back to whenever FTS5 is unavailable.
- Set iteration order: `recall` scores the union of two id sets (memory/store.py:455), and Python visits a set in hash order. The model scores the candidates in table order. Entries with equal scores may come out in a different order. When tied scores fall on both sides of the `[:k]` cut, Python and the model may keep different entries of that equal score.
- `round`: the rounding of reported figures is not modelled: the metrics summary, recent queries, percentiles and cost breakdown (src/lib/metrics.py:99-179), the results the generated programs print (src/tools/code_exec_wrapper.py:289-290, 336, 370), and `estimate_cost` in tools/tools.py:46.
- Text.ShowStrList: renders every item between single quotes with nothing escaped. Python's `str(list)` uses the item's `repr`: an item containing "'" (and no '"') is put between double quotes, and backslashes and control characters are escaped. The messages built with it differ for such names: the missing-parameter error of `BaseTool.ValidateParameters` (src/tools/base_tool.py) and the unavailable-tool error of the plan executor.
- ResponseModel.DigitRun: a digit is '0' to '9'. The `\d` of the numbered-list pattern (src/models/response.py:144) also matches other Unicode decimal digits, so "٣. item" gets a break in Python and none here.
- ReflectionParse.IsItemLine: the numbered-item test accepts '0' to '9' as the first character. `str.isdigit()` (src/agents/reflection_agent.py:170, 363) also accepts other Unicode digits such as "٣" and "²", so "². item" is an item in Python and is skipped here. The characters that `lstrip` removes are modelled exactly.
- RageRules.PayloadStr: a payload value that is present but not a string is replaced by the default. Python uses the value itself, and this narrows three members.
- RageRules.RuleLines: a rule that is not a string is rendered as "- " in the model, where Python renders `str(value)` (a null rule gives "- None", src/feedback/rage_trainer.py:96).
- RageRules.ReactionType: a reaction_type that is not a string is counted as "unknown" in the model, where Python counts under the value itself (src/feedback/rage_trainer.py:157-158).
- RageRules.SummaryOf: an offending_text that is not a string becomes "nothing specific" in the model. In Python `worst_text[:150]` raises on None or a number, and slices a list (src/feedback/rage_trainer.py:167-174).
- Sorting.SortDesc: the descending insertion sort keeps equal elements in their input order, as Python's stable `sort(reverse=True)` does. Sortedness and permutation are proved, but stability is not.
- Concurrency: the `asyncio.Lock`, `RateLimiter.wait_for_token` polling (src/lib/rate_limiter.py:54-77, 157-176), `asyncio.gather` and background tasks are not modelled. So are the adapter's background `_reflect_on_api_interaction` (src/api/adapter.py:236-243, 334-377) and awaiting in general; every call runs to completion in order.
- Language-model and network I/O: every `generate` call is a function parameter that returns a reply or an error. Streaming is a function that returns the pieces and an optional failure. Provider selection inside the connectors is not modelled.
- `json.loads` is a partial-parser parameter. The JSON grammar and the numeric-literal syntax it accepts are not part of this model.
- The regular expressions with character classes are abstracted as pre-extracted matches: the sanity checker's number scans, the XsYp, capacity and voltage patterns of the code-exec wrapper, and the response processor's "according to" and URL patterns.
- Docker: the sandbox is a function from code to outcome. Container options, image verification, gVisor detection and `_cleanup_container` (src/tools/code_executor.py:27-97, 153-190, 248-257) are not modelled. The generated programs are represented by their task and inputs, not by their source text.
- Orchestrator operations outside the core are not modelled: `process_query` (src/core/orchestrator.py:58-269), `check_health` (667-682), `get_cost_summary` (684-693), `enable_manual_override` (695-701), `_check_goal_deviation` (746-791) and `execute_code` (793-830). They wire the modelled operations together around language-model calls.
- PlanAnalyzer.DictToStep: decodes each step field with a JSON type check, where the Python dataclass stores whatever value it is given. `{"steps": [{"id": 3}]}` gives a step with id 3 in Python. Here the step, and with it the plan, is rejected, and the planner falls back to its fallback plan. The same holds for `"input": []` and `"description": null`.
- PlanAnalyzer.DictToPlan: rejects a plan whose steps or top-level fields have the wrong JSON type (for example a non-string intent), where Python builds the plan as given. See the line above.
- PlanAnalyzer.StrField: requires a string (or a missing key, giving the default). Python accepts any value.
- PlanAnalyzer.OptStrField: requires a string or null. Python accepts any value.
- PlanAnalyzer.StrListField: requires a list of strings. Python accepts any value.
- PlanAnalyzer.UserContent: the conversation history is a list of entries. A history given as some other truthy value is not modelled.
- Vault methods out of the core are not modelled: `MemoryVault.export_markdown` (src/storage/memory_vault.py:145-167) and `MemoryRecord.to_dict` (33-45). The `get_all` and `delete` that the vault API calls do not exist on the vault; they are parameters of `MemoryVaultApi`.
- MemoryVault.KeepMembers: the lines of a vault file are decoded records (a dict whose fields have their documented JSON types, `tags` a list of strings) or text that `json.loads` rejects. A line that decodes to a list, number or string is not modelled: `list` appends it as it is when no tag is asked for, and raises AttributeError at `obj.get` (src/storage/memory_vault.py:136) when one is, which the `except json.JSONDecodeError` does not catch. Nor is a string `tags`, which the tag test searches by substring. Nor is a null `created_at`, for which `datetime.fromisoformat(None)` raises TypeError where the model's missing time gives the ValueError of `fromisoformat("")` (RageRules.InWindow).
- MemoryVault.KeptByMembers: `prune` reads the same decoded records. A line that decodes to something other than a dict raises AttributeError at `obj.get` (src/storage/memory_vault.py:187), and a `confidence` that is not a number raises TypeError at `conf < 0.2` (199); both propagate out of `prune`. These lines are not modelled.
- MemoryStore.PassesFilters: the type and metadata filters compare JSON values structurally. Python's `==` also equates `True` with 1 and `False` with 0, and compares dicts regardless of key order, so a filter value `true` matches a stored 1 in Python and not here.
- Conversation.Entry: a context entry's role and content are strings or absent, its token count an integer or absent. Entries with other JSON types, which Python stores and passes through, are not modelled.
- ChatHandler.Message: a request message keeps its role and content only. The optional `name`, `tool_calls` and `tool_call_id` fields (src/api/models/chat.py), which `model_dump(exclude_none=True)` passes to the adapter when set, are not modelled; no modelled operation reads them.
- Memory-store operations out of the core are not modelled: `update` (memory/store.py:512-519), `snapshot` and `restore` (544-578), the embedding helpers `_embedding_for`, `_cosine` and `all_embeddings` (108-147, 276-287), and SQLite row conversion and backend selection (328-377). Dense scores are inputs, and `math.exp` in the time decay is a function parameter.
- MemoryVaultApi: FastAPI's own rejection of out-of-range query parameters is modelled as one 422 answer with a fixed detail. FastAPI's error body is not modelled.
- ChatgptImporter.Extract: reads an export already decoded into conversations, nodes and messages. A conversation, node or message of another JSON type, which raises AttributeError in Python, is not modelled.
- ChatgptImporter.SummaryOf: a summary title that is not a string gives a record with no summary text. Python stores the value itself as the record's summary.
- ChatgptImporter.Importer.ProcessConversations: returns None where a conversation's parent chain is a cycle. There the source loop never ends.
- ChatGPTImporter.import_file (src/tools/chatgpt_importer.py:39-48) is not modelled: it reads a file. The progress `print` calls (61, 66) are not modelled either.
- Conversation.Session.GetContextMessages: a timestamp is a number of seconds. A timestamp string that `fromisoformat` rejects, or a naive one compared with the aware clock, raises in Python. The model has no such case.
- Adapter.Checked: requires every message to be a dict. With a truthy `_conversation` in the request, Python reads only the messages from the end back to the last user message, and the token sum skips non-dicts, so it tolerates non-dict messages before that one (src/api/adapter.py:196-252). The chat handler never passes `_conversation`.
- ResponseProcessor.ProcessIdempotent: idempotence is proved only when the processed text has no opening tag left (`Untagged`). Nested fragments are not stable: processing `<sea<search>a</search>rch>b</search>` removes the inner pair and leaves a new `<search>b</search>` pair for the next pass.

## Findings

| source | as written | input that shows it | evidently intended | confidence | as-written member | corrected member |
|---|---|---|---|---|---|---|
| src/core/model_router.py:177-189 | the Sonnet rule for a score of 0.75 or more comes before the Opus rule, so a score of 0.9 or more never reaches Opus; Opus is reached only through the "critical" tag | complexity score 0.95, no intent tags, not forced local, under the soft cap: routed to sonnet | the routing table (src/core/model_router.py:80-86) sends "critical / very complex" queries to Opus, so a score of 0.9 or more routes to Opus | not executed | ModelRouter.VeryComplexGoesToSonnet | ModelRouter.VeryComplexGoesToOpus |
| src/tools/code_exec_wrapper.py:254-257 | an Ah capacity is divided by 1000 whenever "ma" occurs anywhere in the lower-cased query | "13s4p 3Ah cells, max 4V": "max" contains "ma", so a 3 Ah cell is stored as 0.003 Ah | divide by 1000 only when the capacity match itself is in mAh | not executed | CodeExecWrapper.MaMisreadsAh | CodeExecWrapper.PackCapacityCorrected |
| src/feedback/rage_trainer.py:141-148 | the week filter compares the aware `datetime.now(UTC) - timedelta(days=7)` with `created_at` values that `MemoryVault.add` writes naive (`datetime.utcnow().isoformat()`, src/storage/memory_vault.py:76) | any rage record written by the vault, e.g. `created_at` "2026-10-10T12:00:00": `get_weekly_summary` raises | the summary counts the records created within the last week | not executed | RageTrainer.WeeklyRaisesOnVaultTimes | RageTrainer.WeeklyNaiveClock |
| src/agents/reflection_agent.py:199-211 | the sweep's cutoff is aware while vault records are naive, so the first comparison raises TypeError and the sweep returns status "failed" | one episode written by `add_episode`: `distillation_sweep` fails and stores nothing | the sweep filters the recent episodes and reflections and goes on to distil them | not executed | ReflectionAgent.SweepFailsOnVaultTimes | ReflectionAgent.SweepNaiveCutoff |
