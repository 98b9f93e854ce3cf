# Verified model of three MCP reasoning servers

This project models the core of three tool servers from the `mcp-servers` repository in Dafny and proves properties of that model.

- **ensemble-reasoning.** Several agent "lenses" contribute thoughts to a shared session, endorse or challenge each other's thoughts, and propose integrations. The convergence engine then computes consensus, tensions, a convergence score and circular `buildsOn` chains. A sliding-window limiter caps each agent's operations, and in-memory metrics count operations and keep a bounded latency buffer.
- **lateral-synthesis.** A four-stage workflow: origin → divergent concepts → one synthesis per concept → reflection. Completed sessions are written to a history directory as one JSON line per file and read back when sessions are listed.
- **federated-intelligence.** A file-backed chat-session store. Clients shape a request for Ollama, OpenAI-compatible or Gemini back ends, a factory caches one client per provider, and a consultation handler threads the conversation history through the store.

Stateful parts of the source are Dafny classes whose methods update fields:

- the ensemble session, the rate limiter and the metrics
- the three servers' handler state
- the lateral history directory
- the federated session directory and client factory

Each method is proved against pure specification functions. Properties about those functions are proved as lemmas. Time, uuids, random draws and provider answers are method parameters.

Files:

- `common.dfy`: Python built-ins the servers lean on (`str.strip`, slicing, string and tuple ordering, stable `sort(reverse=True)`).
- `ensemble_models.dfy`, `ensemble_analysis.dfy`, `ensemble_tools.dfy`: the store, the convergence engine and the handlers of ensemble-reasoning.
- `lateral_models.dfy`, `lateral_persistence.dfy`, `lateral_tools.dfy`: lateral-synthesis.
- `federated_sessions.dfy`, `federated_clients.dfy`, `federated_tools.dfy`: federated-intelligence.

Where the code disagrees with itself or with its description, the model follows the handlers' code:

- The ensemble handlers call `is_rate_limited(session_id, agent)` and `record_agent_op(session_id, agent)` and read `_agent_session_ops` (ensemble-reasoning/modules/tools.py:74, :103, :323). The functions at ensemble-reasoning/modules/models.py:219 and :234 take only the agent. The limiter is therefore written once, over a generic key, and the handlers use it with the `(session, agent)` key they assume.
- `add_thought` reads `max_thoughts_per_agent_per_session`, and the handlers read four limits (`max_thought_length`, `max_note_length`, `max_integration_length`, `max_reconciles_per_integration`) that `ServerConfig` (ensemble-reasoning/modules/models.py:24) does not declare. They are configuration fields without defaults in the model.

## Model

| member | source | states |
|---|---|---|
| Common.StripEmptyIffBlank | lateral-synthesis/modules/tools.py:60-62 | `s.strip()` is empty exactly when `s` is empty or all whitespace |
| Common.Take | federated-intelligence/modules/sessions.py:90 | `s[:n]` has length `min(len(s), n)` and is a prefix of `s` |
| Common.SliceTo | lateral-synthesis/modules/tools.py:473 | `xs[:limit]` is a prefix of `xs`, of length `limit` (capped) for a non-negative limit; a negative limit drops that many elements from the end |
| Common.RemoveChar | lateral-synthesis/modules/persistence.py:34 | `s.replace(c, "")` no longer contains `c`, and keeps every other character |
| Common.BeforeFirst | lateral-synthesis/modules/persistence.py:34 | `s.split(sep)[0]` is the longest prefix of `s` without `sep` |
| Common.StrLeTotal | lateral-synthesis/modules/tools.py:469 | Python string comparison is total |
| Common.StrLeTransitive | lateral-synthesis/modules/tools.py:469 | Python string comparison is transitive |
| Common.SortDesc | federated-intelligence/modules/sessions.py:94 | `sorted(xs, key, reverse=True)` is a permutation of `xs` |
| Common.SortDescSorted | federated-intelligence/modules/sessions.py:94 | that sort leaves keys in descending order |
| Common.SortDescStable | federated-intelligence/modules/sessions.py:94 | the sort is stable: the elements sharing a key keep their input order |
| Common.NewestCut | lateral-synthesis/modules/persistence.py:76-77 | `sorted(..., reverse=True)[:limit]` keeps a sorted sub-multiset of `min(limit, n)` elements (non-negative limit), and every element it leaves out has a key no later than every key it keeps |
| Common.InsertDescSorted | federated-intelligence/modules/sessions.py:94 | inserting into a descending list keeps it descending |
| EnsembleModels.Lookup | ensemble-reasoning/modules/models.py:81 | `endorsements` as a dictionary: an agent has an entry iff it is one of its keys |
| EnsembleModels.PutSpec | ensemble-reasoning/modules/tools.py:151 | `endorsements[agent] = level` sets that key and no other, keeps keys distinct, and grows the dictionary only for a new key, added last |
| EnsembleModels.PutLookup | ensemble-reasoning/modules/tools.py:151 | after the write the key reads back the new level; other keys read back as before |
| EnsembleModels.IdsByCount | ensemble-reasoning/modules/models.py:138 | an agent's id list and thought list have the same length and matching ids |
| EnsembleModels.LookupAllAgent | ensemble-reasoning/modules/models.py:160-161 | looking up an agent's ids in the index gives that agent's thoughts in contribution order |
| EnsembleModels.IdsByUpdate | ensemble-reasoning/modules/tools.py:151-157 | rewriting a thought in place leaves every agent's id list as it was |
| EnsembleModels.EnsembleSession.constructor | ensemble-reasoning/modules/models.py:119-132 | a new session has no thoughts or proposals, both counters at 1, empty indices |
| EnsembleModels.EnsembleSession.AgentCount | ensemble-reasoning/modules/models.py:138 | the per-agent index count equals the number of the agent's thoughts |
| EnsembleModels.EnsembleSession.AddThought | ensemble-reasoning/modules/models.py:134-149 | raises SessionFull, then AgentFull, at the caps and then changes nothing; otherwise appends the thought under id `len(thoughts) + 1`; both indices stay consistent |
| EnsembleModels.AppendKeepsIndices | ensemble-reasoning/modules/models.py:134-149 | appending the thought numbered `len(thoughts) + 1` and filing it under its id and its agent keeps the id index and the per-agent lists in agreement with the thought list |
| EnsembleModels.EnsembleSession.AddIntegration | ensemble-reasoning/modules/models.py:151-155 | numbers proposals 1, 2, … independently of thought ids and leaves the thoughts alone |
| EnsembleModels.EnsembleSession.GetThought | ensemble-reasoning/modules/models.py:157-158 | returns the thought at position `id - 1` for `1 <= id <= len(thoughts)`, and None for any other id |
| EnsembleModels.EnsembleSession.GetAgentThoughts | ensemble-reasoning/modules/models.py:160-161 | the agent's thoughts in contribution order, [] for an agent with none |
| EnsembleModels.EnsembleSession.ApplyEndorsement | ensemble-reasoning/modules/tools.py:151-157 | the thought is replaced by its endorsed version in both the list and the index |
| EnsembleModels.PrunedSpec | ensemble-reasoning/modules/models.py:227-228 | pruning drops a prefix, every dropped timestamp is older than the cutoff, and the first one kept is not |
| EnsembleModels.PrunedInOrder | ensemble-reasoning/modules/models.py:227-228 | on a time-ordered queue, pruning keeps exactly the timestamps inside the window |
| EnsembleModels.SlidingWindow.constructor | ensemble-reasoning/modules/models.py:209 | the limiter starts with no queues |
| EnsembleModels.SlidingWindow.IsLimited | ensemble-reasoning/modules/models.py:219-231 | prunes only that key's queue; limited iff the remaining count is at least the budget |
| EnsembleModels.PopExpired | ensemble-reasoning/modules/models.py:226-228 | popping from the left while the front is older than the cutoff leaves exactly `Pruned(q, cutoff)`: the longest suffix whose first element is inside the window |
| EnsembleModels.SlidingWindow.Record | ensemble-reasoning/modules/models.py:234-240 | appends `now` at the back of the key's queue unconditionally; other keys unchanged |
| EnsembleModels.SlidingWindow.Clear | ensemble-reasoning/modules/tools.py:342-347 | empties one key's queue and no other |
| EnsembleModels.SlidingWindow.PruneAll | ensemble-reasoning/modules/tools.py:320-329 | every queue is pruned to the window and its remaining length reported |
| EnsembleModels.Metrics.constructor | ensemble-reasoning/modules/models.py:182-185 | metrics start empty |
| EnsembleModels.Metrics.IncCounter | ensemble-reasoning/modules/models.py:188-194 | adds exactly `delta`, or nothing when metrics are disabled |
| EnsembleModels.Metrics.RecordLatency | ensemble-reasoning/modules/models.py:197-206 | keeps at most 1000 samples, the most recent ones in arrival order; other operations untouched |
| EnsembleAnalysis.CalculateConsensus | ensemble-reasoning/modules/utils.py:4-34 | fewer than 2 thoughts give no consensus and 0.0; otherwise the entries of the accumulation loop |
| EnsembleAnalysis.ConsensusMembership | ensemble-reasoning/modules/utils.py:12-27 | a thought is reported iff it has an endorsement and its mean reaches the threshold; the text is cut to 100 characters |
| EnsembleAnalysis.ConsensusInThoughtOrder | ensemble-reasoning/modules/utils.py:12-27 | entries follow the session's thought order |
| EnsembleAnalysis.AvgAgreementIsFlatMean | ensemble-reasoning/modules/utils.py:9-19 | `avg_agreement` is the sum of every endorsement value over their count, 0.0 with none |
| EnsembleAnalysis.AvgAgreementNotMeanOfMeans | ensemble-reasoning/modules/utils.py:29 | a two-thought session where the flat mean differs from the mean of per-thought means |
| EnsembleAnalysis.AvgAgreementBounded | ensemble-reasoning/modules/utils.py:29 | levels in [-1, 1] give an average in [-1, 1] |
| EnsembleAnalysis.TallyTotals | ensemble-reasoning/modules/utils.py:16-19 | the loop's running sum and count are the sum and count of all values |
| EnsembleAnalysis.ContestedCounts | ensemble-reasoning/modules/utils.py:44-47 | a thought is contested iff both counts are positive |
| EnsembleAnalysis.TensionsMembership | ensemble-reasoning/modules/utils.py:37-57 | a thought is reported iff some value reaches the positive threshold and some the negative one; `supporters`/`challengers` are exactly those counts |
| EnsembleAnalysis.TensionSource | ensemble-reasoning/modules/utils.py:37-57 | every reported tension is the tension of some contested thought |
| EnsembleAnalysis.TensionReported | ensemble-reasoning/modules/utils.py:37-57 | every contested thought has its tension reported |
| EnsembleAnalysis.TensionCountsBounded | ensemble-reasoning/modules/utils.py:44-53 | with the positive threshold above the negative one, supporters plus challengers never exceed the endorsements |
| EnsembleAnalysis.CountsDisjoint | ensemble-reasoning/modules/utils.py:44-45 | no value is counted as both a supporter and a challenger |
| EnsembleAnalysis.ScoreCounts | ensemble-reasoning/modules/utils.py:64-71 | the positive count never exceeds the total |
| EnsembleAnalysis.ConvergenceScore | ensemble-reasoning/modules/utils.py:60-76 | the score lies in [0, 1] |
| EnsembleAnalysis.ConvergenceScoreIsShare | ensemble-reasoning/modules/utils.py:60-76 | 0 with fewer than 3 thoughts or no endorsements; otherwise the share of values at or above the positive threshold |
| EnsembleAnalysis.ConvergenceFullIffAllPositive | ensemble-reasoning/modules/utils.py:60-76 | the score is 1 iff there are 3+ thoughts, some endorsement, and every value is at or above `positiveEndorsementThreshold` |
| EnsembleAnalysis.MinIndex | ensemble-reasoning/modules/utils.py:95-96 | `cycle.index(min(cycle))`: the first position of the minimum |
| EnsembleAnalysis.Normalize | ensemble-reasoning/modules/utils.py:91-98 | the rotation keeps the length and starts at the minimum id |
| EnsembleAnalysis.RotationPreservesCycle | ensemble-reasoning/modules/utils.py:97 | rotating a cycle of distinct ids gives a cycle of distinct ids |
| EnsembleAnalysis.NormalizeReports | ensemble-reasoning/modules/utils.py:91-98 | a normalised cycle is a cycle, distinct, starting at its minimum |
| EnsembleAnalysis.Reverse | ensemble-reasoning/modules/utils.py:139 | `list(reversed(s))` reverses positions |
| EnsembleAnalysis.ReversedWalkIsCycle | ensemble-reasoning/modules/utils.py:130-139 | a parent-pointer walk that closed back on `dep`, reversed, is a `builds_on` cycle |
| EnsembleAnalysis.InsertLex | ensemble-reasoning/modules/utils.py:142 | inserting into a strictly increasing list of tuples keeps it strictly increasing, with the same elements plus one |
| EnsembleAnalysis.SortCycles | ensemble-reasoning/modules/utils.py:142 | `sorted(cycles_set)` holds exactly the set's cycles, strictly increasing in tuple order |
| EnsembleAnalysis.NoCycleWhenEdgesDescend | ensemble-reasoning/modules/utils.py:79-142 | when every `builds_on` id is smaller than its thought's id there is no cycle |
| EnsembleAnalysis.CycleFromBackEdge | ensemble-reasoning/modules/utils.py:130-140 | the back-edge branch reports only distinct, normalised, genuine cycles |
| EnsembleAnalysis.SearchStep | ensemble-reasoning/modules/utils.py:109-128 | one loop turn keeps the search invariant and colours a new id or advances an index |
| EnsembleAnalysis.Explore | ensemble-reasoning/modules/utils.py:100-128 | the search from one start id terminates, keeps the invariant, and colours the start |
| EnsembleAnalysis.RootKeepsSearchOk | ensemble-reasoning/modules/utils.py:101-105 | colouring an unvisited root grey and dropping its parent keeps the search invariant |
| EnsembleAnalysis.DetectCycles | ensemble-reasoning/modules/utils.py:79-142 | terminates; every result is a distinct-id cycle starting at its minimum; results are sorted without duplicates; [] when edges descend |
| EnsembleTools.Clamp | ensemble-reasoning/modules/tools.py:90 | `max(lo, min(hi, x))` lies in [lo, hi] and is `x` when `x` already does |
| EnsembleTools.UnknownLenses | ensemble-reasoning/modules/tools.py:40-42 | exactly the requested lenses outside the vocabulary |
| EnsembleTools.UnknownLensesAppend | ensemble-reasoning/modules/tools.py:40-42 | the filter keeps request order and repeats: it distributes over concatenation |
| EnsembleTools.FirstMissing | ensemble-reasoning/modules/tools.py:86-88 | None iff every id names a thought; otherwise an id from the list that does not |
| EnsembleTools.FirstReconcileProblem | ensemble-reasoning/modules/tools.py:249-254 | None iff every entry is an int naming a thought |
| EnsembleTools.ThoughtsOkBounds | ensemble-reasoning/modules/tools.py:85-90 | handler-built sessions have descending `buildsOn` edges and levels in [-1, 1] |
| EnsembleTools.AppendThoughtOk | ensemble-reasoning/modules/tools.py:85-101 | appending a thought whose `buildsOn` names earlier thoughts keeps the session invariant |
| EnsembleTools.EndorsedOk | ensemble-reasoning/modules/tools.py:144-157 | an endorsement past every check keeps the thought invariant |
| EnsembleTools.ContributeVerdict | ensemble-reasoning/modules/tools.py:74-88 | the rate, length, `buildsOn` and the two capacity checks pass iff each condition holds |
| EnsembleTools.EndorseVerdict | ensemble-reasoning/modules/tools.py:134-148 | the rate, note, self-endorsement and cap checks pass iff each condition holds |
| EnsembleTools.ProposeVerdict | ensemble-reasoning/modules/tools.py:229-254 | the rate, length, list and reconciles checks pass iff each condition holds |
| EnsembleTools.HandleCallTool | ensemble-reasoning/server.py:212-230 | an unknown name gives `unknown_tool`; an escaped exception gives `internal_error`; success iff the handler succeeded |
| EnsembleTools.EnsembleServer.constructor | ensemble-reasoning/modules/models.py:176-177 | no sessions, no current session, an empty limiter and metrics |
| EnsembleTools.EnsembleServer.Target | ensemble-reasoning/modules/tools.py:64-66 | the resolved session is one of the active sessions |
| EnsembleTools.EnsembleServer.RecordAgentOp | ensemble-reasoning/modules/models.py:234-240 | starting from the handler's pruned queue, exactly one timestamp (`now`) is appended for the key, the operation counter grows by one when metrics are on, and nothing else in the limiter or the metrics changes |
| EnsembleTools.EnsembleServer.StartCollaborative | ensemble-reasoning/modules/tools.py:35-59 | unknown lenses first, then fewer than 2; on success the new session is registered and current, and the reply echoes the problem, the lenses and their descriptions |
| EnsembleTools.EnsembleServer.CheckBuildsOn | ensemble-reasoning/modules/tools.py:86-88 | the loop finds the first id without a thought |
| EnsembleTools.EnsembleServer.ContributeTo | ensemble-reasoning/modules/tools.py:74-111 | the remaining checks in order; errors leave the session and queue as they were (the queue pruned) |
| EnsembleTools.EnsembleServer.AppendThought | ensemble-reasoning/modules/tools.py:100-103 | a capacity error raises and records no rate op; otherwise one thought and one op |
| EnsembleTools.EnsembleServer.Contribute | ensemble-reasoning/modules/tools.py:62-111 | no session, then agent not in session, then the remaining checks; weight clamped to [0, 1]; other sessions untouched |
| EnsembleTools.EnsembleServer.EndorseIn | ensemble-reasoning/modules/tools.py:133-176 | the remaining checks in order; none of their errors mutates the thought |
| EnsembleTools.EnsembleServer.ApplyChecked | ensemble-reasoning/modules/tools.py:150-163 | overwrites the agent's entry; a challenge is appended iff the level is negative and the note non-empty |
| EnsembleTools.EnsembleServer.EndorseChecked | ensemble-reasoning/modules/tools.py:150-176 | the write of `ApplyChecked` followed by exactly one rate-limiter timestamp and one operation count for the agent; the reply counts the distinct endorsers |
| EnsembleTools.EnsembleServer.EndorseOrChallenge | ensemble-reasoning/modules/tools.py:114-176 | level clamped to [-1, 1]; `thought_not_found` and `agent_not_in_session` before the rest |
| EnsembleTools.EnsembleServer.CheckReconciles | ensemble-reasoning/modules/tools.py:249-254 | the loop finds the first non-int or dangling entry |
| EnsembleTools.EnsembleServer.ProposeIn | ensemble-reasoning/modules/tools.py:228-271 | every reconciles check happens before a proposal id is allocated |
| EnsembleTools.EnsembleServer.AppendProposal | ensemble-reasoning/modules/tools.py:256-265 | appends one proposal under the next id, `reconciles` stored as the request gave it (booleans included); thoughts unchanged |
| EnsembleTools.EnsembleServer.ProposeIntegration | ensemble-reasoning/modules/tools.py:214-271 | no session, then agent not in session, then the remaining checks; on success the stored proposal and the reply echo `reconciles` exactly as given |
| EnsembleTools.EnsembleServer.SynthesizeSession | ensemble-reasoning/modules/tools.py:189-201 | the synthesis combines the analytics; on handler-built sessions the score is in [0, 1], the average in [-1, 1], and `circularReasoning` is [] |
| EnsembleTools.EnsembleServer.Synthesize | ensemble-reasoning/modules/tools.py:179-211 | `no_active_session` iff no target, success iff there is one; an absent threshold is the configured default |
| EnsembleTools.EnsembleServer.GetRateStatus | ensemble-reasoning/modules/tools.py:315-331 | every queue pruned to the window, its length reported |
| EnsembleTools.EnsembleServer.ResetAgentRate | ensemble-reasoning/modules/tools.py:334-353 | `missing_agentLens` iff no agent, success iff one is given; that agent's queue is then cleared in the named session, or in every session |
| LateralModels.ValidateSynthesis | lateral-synthesis/modules/models.py:108-119 | each error is present iff its condition fails; empty iff the synthesis is valid |
| LateralModels.ValidateReflection | lateral-synthesis/modules/models.py:131-140 | each error is present iff its condition fails; empty iff the reflection is valid |
| LateralModels.CreateSession | lateral-synthesis/modules/models.py:155-162 | a new session has no concepts, syntheses or reflection, and is created now |
| LateralModels.SynthesizedConcepts | lateral-synthesis/modules/models.py:164-166 | exactly the concepts of the syntheses |
| LateralModels.Without | lateral-synthesis/modules/models.py:168-171 | the elements outside the dropped set, in order |
| LateralModels.RemainingConcepts | lateral-synthesis/modules/models.py:168-171 | the divergent concepts not yet synthesised |
| LateralModels.RemainingDisjointFromSynthesized | lateral-synthesis/modules/models.py:164-171 | remaining and synthesised concepts are disjoint and together cover the divergent concepts |
| LateralModels.ToDict | lateral-synthesis/modules/models.py:181-192 | the id, origin, concepts and syntheses are written under their keys; the round trip below covers the rest |
| LateralModels.Decode | lateral-synthesis/modules/models.py:194-212 | a session iff both required keys are present; the documented defaults otherwise |
| LateralModels.DecodeToDict | lateral-synthesis/modules/models.py:181-212 | `from_dict(to_dict(s))` gives back `s` |
| LateralModels.FromDict | lateral-synthesis/modules/models.py:194-212 | the loop building the syntheses computes `Decode` |
| LateralPersistence.SanitizeTimestamp | lateral-synthesis/modules/persistence.py:34 | the result contains no ':', '-' or '.' |
| LateralPersistence.SanitizeIdempotent | lateral-synthesis/modules/persistence.py:34 | sanitising twice changes nothing more |
| LateralPersistence.SaveTimestamp | lateral-synthesis/modules/persistence.py:32 | `completed_at` when truthy, otherwise now |
| LateralPersistence.HistoryFileName | lateral-synthesis/modules/persistence.py:36 | the name is the prefix, the sanitised timestamp, `-`, at most 8 characters of the id and the suffix, by length |
| LateralPersistence.HistoryFileNameRoundTrip | lateral-synthesis/modules/persistence.py:36-55 | every saved name matches the load glob, and gives back the sanitised timestamp |
| LateralPersistence.Matching | lateral-synthesis/modules/persistence.py:55 | exactly the names the glob matches |
| LateralPersistence.ParsedLines | lateral-synthesis/modules/persistence.py:62-71 | at most one session per line, each decoded from a record line of the file |
| LateralPersistence.FromFiles | lateral-synthesis/modules/persistence.py:59-73 | every session read comes from a record line of one of the files |
| LateralPersistence.HistoryFiles | lateral-synthesis/modules/persistence.py:55-59 | the files read are matching names only, `min(limit, n)` of them for a non-negative limit, and every matching name left out sorts no later than every name read |
| LateralPersistence.LoadedShape | lateral-synthesis/modules/persistence.py:50-77 | [] without a directory; otherwise a sub-multiset of the sessions parsed from the newest `limit` files, of size `min(limit, n)` for a non-negative limit, newest `created_at` first (missing as ""), every session left out dated no later than every one kept, and each kept session decoded from a record line of one of those files |
| LateralPersistence.HistoryDir.constructor | lateral-synthesis/modules/persistence.py:16-19 | the directory as given |
| LateralPersistence.HistoryDir.Save | lateral-synthesis/modules/persistence.py:22-44 | nothing when persistence is off; otherwise the named file holds exactly the session's line |
| LateralPersistence.HistoryDir.Load | lateral-synthesis/modules/persistence.py:47-77 | the nested loops compute `Loaded` |
| LateralPersistence.AppendParsed | lateral-synthesis/modules/persistence.py:62-71 | the inner loop appends what each line yields |
| LateralPersistence.ParsedRecord | lateral-synthesis/modules/persistence.py:41-67 | the line written for a session is read back as that session |
| LateralPersistence.SavedSessionIsLoaded | lateral-synthesis/modules/persistence.py:22-77 | a directory holding just the file `save_session` wrote loads back exactly that session |
| LateralTools.Arg | lateral-synthesis/modules/tools.py:60 | `args.get(key, "").strip()` is empty iff the argument is missing or blank |
| LateralTools.RecordInputOf | lateral-synthesis/modules/tools.py:191-216 | the three stripped arguments, each empty iff blank |
| LateralTools.ReflectInputOf | lateral-synthesis/modules/tools.py:323-335 | the two stripped texts, and the surprising connections as a list |
| LateralTools.SurprisingOf | lateral-synthesis/modules/tools.py:325-335 | a list is kept, a single value wrapped, a missing one [] |
| LateralTools.ElementsCard | lateral-synthesis/modules/models.py:173-175 | a list is duplicate-free iff its set has its length |
| LateralTools.SynthesisCompleteShape | lateral-synthesis/modules/models.py:173-175 | on handler-built sessions, completeness means distinct concepts, one synthesis each, none remaining |
| LateralTools.DuplicateConceptNeverCompletes | lateral-synthesis/modules/tools.py:203 | a repeated concept means the session never completes synthesis or reflection |
| LateralTools.CountVerdict | lateral-synthesis/modules/tools.py:123-130 | succeeds iff the count parses and lies in 1..50 |
| LateralTools.GenerateVerdict | lateral-synthesis/modules/tools.py:115-130 | `already_generated` without override on a drawn session; success only for a count in 1..50 |
| LateralTools.Generated | lateral-synthesis/modules/tools.py:133-146 | override clears syntheses, reflection and `completed_at` before storing the concepts |
| LateralTools.GeneratedOk | lateral-synthesis/modules/tools.py:115-146 | an allowed draw keeps the session invariant, whatever the concepts |
| LateralTools.ConceptVerdict | lateral-synthesis/modules/tools.py:191-208 | `no_divergence`, then `missing_concept`; success iff the concept is still remaining |
| LateralTools.SynthesisVerdict | lateral-synthesis/modules/tools.py:210-258 | a success is a valid synthesis of the concept with the given confidence, insight within the limit |
| LateralTools.SynthesisAccepted | lateral-synthesis/modules/tools.py:210-258 | fields that pass every check are accepted as that synthesis |
| LateralTools.RecordVerdict | lateral-synthesis/modules/tools.py:191-258 | a success records a remaining concept; concept errors come first |
| LateralTools.RecordedOk | lateral-synthesis/modules/tools.py:260 | appending keeps synthesised concepts distinct and within the divergent ones |
| LateralTools.DuplicateDrawStuck | lateral-synthesis/modules/tools.py:203 | after drawing `[x, x]` and recording `x`, every further record fails and synthesis is never complete |
| LateralTools.ReflectionVerdict | lateral-synthesis/modules/tools.py:323-358 | a success is a valid reflection with the given rating and connections |
| LateralTools.ReflectVerdict | lateral-synthesis/modules/tools.py:309-358 | `synthesis_incomplete`, then `already_reflected`; success only on a complete, unreflected session |
| LateralTools.Reflected | lateral-synthesis/modules/tools.py:361-362 | reflection and `completed_at` are set together; concepts, syntheses and origin are kept |
| LateralTools.ReflectedOk | lateral-synthesis/modules/tools.py:361-362 | the reflected session keeps the invariant and is complete |
| LateralTools.DuplicateConceptBlocksReflection | lateral-synthesis/modules/tools.py:309-318 | a session with a repeated concept answers every reflection with `synthesis_incomplete` |
| LateralTools.ArgUnchanged | lateral-synthesis/modules/tools.py:60 | an argument without surrounding whitespace is taken as given |
| LateralTools.StatusOf | lateral-synthesis/modules/tools.py:405-416 | the status block: full completion implies synthesis completion and a reflection |
| LateralTools.StatusOfHandlerSession | lateral-synthesis/modules/tools.py:405-416 | on handler-built sessions, synthesis complete iff concepts drawn, none remaining, all distinct |
| LateralTools.Preview | lateral-synthesis/modules/tools.py:443 | the first 100 characters, followed by "..." iff the origin is longer |
| LateralTools.MemoryEntries | lateral-synthesis/modules/tools.py:437-447 | one entry per session, in table order |
| LateralTools.HistoryEntries | lateral-synthesis/modules/tools.py:452-464 | exactly the history sessions no memory entry shadows: each such session gives an entry, and each entry is one of them |
| LateralTools.Listing | lateral-synthesis/modules/tools.py:469-477 | sorting fails iff two or more entries and one lacks `created_at`; otherwise a sub-multiset of the entries, `min(limit, n)` of them for a non-negative limit, every entry left out dated no later than every one kept; `total` counts before the cut |
| LateralTools.ListingSorted | lateral-synthesis/modules/tools.py:469 | the listing is newest first |
| LateralTools.HandleCallTool | lateral-synthesis/server.py:208-233 | an unknown name gives `unknown_tool`; an escaped exception gives `internal_error` |
| LateralTools.LateralServer.constructor | lateral-synthesis/modules/models.py:220-226 | no sessions and no current session |
| LateralTools.LateralServer.CurrentSession | lateral-synthesis/modules/models.py:244-248 | None when the id is unset, empty or not stored |
| LateralTools.LateralServer.SetCurrentSession | lateral-synthesis/modules/models.py:237-241 | sets the current id only |
| LateralTools.LateralServer.Resolve | lateral-synthesis/modules/tools.py:106-113 | a non-empty argument is looked up; otherwise the current session |
| LateralTools.LateralServer.Store | lateral-synthesis/modules/tools.py:80 | `SESSIONS[id] = session`; a new id goes last in the order |
| LateralTools.LateralServer.StartSession | lateral-synthesis/modules/tools.py:50-89 | blank origin, then too long; on success the session is stored and current |
| LateralTools.LateralServer.GenerateDivergence | lateral-synthesis/modules/tools.py:96-157 | `no_session`, then the verdict; on success the drawn concepts are stored |
| LateralTools.LateralServer.RecordSynthesis | lateral-synthesis/modules/tools.py:164-280 | any error appends nothing; success appends exactly the verdict's synthesis |
| LateralTools.LateralServer.RecordIn | lateral-synthesis/modules/tools.py:191-280 | on a resolved session, every check refuses with nothing changed, and success appends exactly the verdict's synthesis and reports the counts and remaining concepts of the new session |
| LateralTools.LateralServer.Replace | lateral-synthesis/modules/tools.py:260 | storing a session that keeps the invariant under its own id changes only that entry and keeps the table and the listing order consistent |
| LateralTools.LateralServer.ReflectOnSession | lateral-synthesis/modules/tools.py:287-381 | any error changes nothing; success completes the session and saves it to history, a new file name going last in the listing |
| LateralTools.LateralServer.CompleteSession | lateral-synthesis/modules/tools.py:361-365 | the reflected session replaces the stored one and is written to the history file, a new file name going last in the listing |
| LateralTools.LateralServer.GetSession | lateral-synthesis/modules/tools.py:388-417 | the session's dictionary and status iff it resolves, `no_session` otherwise |
| LateralTools.LateralServer.ListSessions | lateral-synthesis/modules/tools.py:424-477 | the listing of the collected entries; always succeeds without history |
| LateralTools.LateralServer.ListedEntries | lateral-synthesis/modules/tools.py:437-464 | memory entries, then unshadowed history entries |
| LateralTools.LateralServer.MemoryListing | lateral-synthesis/modules/tools.py:437-447 | the memory loop computes `MemoryEntries` |
| LateralTools.LateralServer.MemoryEntriesDated | lateral-synthesis/modules/tools.py:445 | every memory entry has a `created_at` |
| LateralTools.AppendUnshadowed | lateral-synthesis/modules/tools.py:452-464 | the history loop computes `HistoryEntries` |
| FederatedSessions.RecordOf | federated-intelligence/modules/sessions.py:61-70 | `asdict(session)` keeps the id and writes each message as an entry `Message` accepts |
| FederatedSessions.SessionOf | federated-intelligence/modules/sessions.py:39-59 | a session iff the file is a dictionary with an id whose every message entry `Message(**m)` accepts; those messages in order, and the documented defaults otherwise |
| FederatedSessions.MessagesOf | federated-intelligence/modules/sessions.py:49 | the comprehension succeeds iff every entry is accepted, and then gives one message per entry, in order |
| FederatedSessions.MessagesOfRaws | federated-intelligence/modules/sessions.py:49 | rebuilding the entries `asdict` wrote gives the messages back |
| FederatedSessions.SessionOfRecord | federated-intelligence/modules/sessions.py:39-70 | reading back a saved session gives the session |
| FederatedSessions.EntryOf | federated-intelligence/modules/sessions.py:82-93 | a row iff the file is a dictionary with an id and its last message entry (if any) has a `content`: message count, preview of that content's first 50 characters or "" |
| FederatedSessions.ListedButUnread | federated-intelligence/modules/sessions.py:49-90 | a file with an entry `Message` refuses but a last entry with `content` is listed yet not readable by `get_session` |
| FederatedSessions.ReadIsListed | federated-intelligence/modules/sessions.py:39-90 | every file `get_session` reads is listed, with its message count |
| FederatedSessions.Entries | federated-intelligence/modules/sessions.py:82-92 | exactly the rows of the files `list_sessions` can read |
| FederatedSessions.Listed | federated-intelligence/modules/sessions.py:94 | the sort raises iff two or more rows and one lacks `created_at`; otherwise a permutation |
| FederatedSessions.ListedSorted | federated-intelligence/modules/sessions.py:94 | the listing is newest first |
| FederatedSessions.Read | federated-intelligence/modules/sessions.py:39-59 | None for an unknown id or a file `get_session` cannot rebuild |
| FederatedSessions.AfterAdd | federated-intelligence/modules/sessions.py:72-78 | unchanged when `get_session` cannot read the file; otherwise the appended session rewritten |
| FederatedSessions.Appended | federated-intelligence/modules/sessions.py:63-78 | exactly one message at the end, earlier messages unchanged, `updated_at` refreshed |
| FederatedSessions.AddMessageReadBack | federated-intelligence/modules/sessions.py:72-78 | reading after `add_message` gives the old messages then the new one |
| FederatedSessions.SessionManager.constructor | federated-intelligence/modules/sessions.py:26-28 | the directory as given |
| FederatedSessions.SessionManager.GetSession | federated-intelligence/modules/sessions.py:39-59 | reads the file; an own-id file gives that id |
| FederatedSessions.SessionManager.SaveSession | federated-intelligence/modules/sessions.py:61-70 | stamps `updated_at` and writes the file of that id |
| FederatedSessions.SessionManager.CreateSession | federated-intelligence/modules/sessions.py:33-37 | a new empty session with the metadata or {}, stored and readable |
| FederatedSessions.SessionManager.AddMessage | federated-intelligence/modules/sessions.py:72-78 | raises iff the session cannot be read; otherwise the directory after the append |
| FederatedSessions.SessionManager.ListSessions | federated-intelligence/modules/sessions.py:80-94 | the loop computes the sorted rows |
| FederatedClients.ChatMessages | federated-intelligence/modules/clients.py:103-109 | `messages` verbatim when non-empty; otherwise [system iff a prompt] then the user query (the same construction as lines 38-44) |
| FederatedClients.TrimSlashes | federated-intelligence/modules/clients.py:31 | `rstrip('/')` removes exactly the trailing slashes |
| FederatedClients.TrimSlashesIdempotent | federated-intelligence/modules/clients.py:31 | stripping twice changes nothing more |
| FederatedClients.OllamaPayloadOf | federated-intelligence/modules/clients.py:46-54 | `stream` false; temperature present iff given |
| FederatedClients.OpenAIPayloadOf | federated-intelligence/modules/clients.py:112-116 | `temperature or 0.7`: None and 0.0 become 0.7 |
| FederatedClients.GeminiTurns | federated-intelligence/modules/clients.py:167-180 | only user and model turns, no more than the messages |
| FederatedClients.Conversational | federated-intelligence/modules/clients.py:167-180 | exactly the user and assistant messages |
| FederatedClients.GeminiTurnsRoundTrip | federated-intelligence/modules/clients.py:167-180 | converting back gives the conversational messages in order |
| FederatedClients.GeminiTurnsAppend | federated-intelligence/modules/clients.py:167-180 | the conversion distributes over concatenation |
| FederatedClients.ConvertHistory | federated-intelligence/modules/clients.py:167-180 | the loop computes the conversion |
| FederatedClients.SingleTurnPrompt | federated-intelligence/modules/clients.py:206-209 | the query, prefixed by the system prompt iff there is one |
| FederatedClients.GeminiCallOf | federated-intelligence/modules/clients.py:155-216 | fails iff no key; a chat iff there are messages; a final user turn is popped and sent |
| FederatedClients.GeminiShape | federated-intelligence/modules/clients.py:187-204 | the pop computes `GeminiCallOf` |
| FederatedClients.WireOf | federated-intelligence/modules/clients.py:155-216 | only an unconfigured Google client fails; others send the chat messages (built as at lines 35-54 and 102-116) |
| FederatedClients.BuildClient | federated-intelligence/modules/clients.py:259-281 | fails for a missing or unknown provider; the client carries the provider's label |
| FederatedClients.Lookup | federated-intelligence/modules/clients.py:253-254 | a cached provider gets its instance; otherwise a new one |
| FederatedClients.Cached | federated-intelligence/modules/clients.py:283 | a built client is cached; a failure caches nothing |
| FederatedClients.LookupMemo | federated-intelligence/modules/clients.py:253-283 | after a success, later lookups return the same instance whatever the config |
| FederatedClients.ClientFactory.constructor | federated-intelligence/modules/clients.py:249-250 | no cached clients |
| FederatedClients.ClientFactory.GetClient | federated-intelligence/modules/clients.py:252-284 | returns the lookup and updates the cache accordingly |
| FederatedTools.ModelFor | federated-intelligence/modules/tools.py:45-49 | the given model, or the provider's default; never "" |
| FederatedTools.Forwarded | federated-intelligence/modules/tools.py:66-71 | the session's messages, with a system message at index 0 iff a prompt |
| FederatedTools.ChatOf | federated-intelligence/modules/tools.py:66 | role and content of each message |
| FederatedTools.Answer | federated-intelligence/modules/tools.py:86 | an unconfigured Google client gives no answer |
| FederatedTools.Consult | federated-intelligence/modules/tools.py:35-111 | `no_model` first; nothing stored without a session; `session_not_found` for an unknown id; the reply names the model and provider |
| FederatedTools.ConsultStoresTurns | federated-intelligence/modules/tools.py:56-111 | for a session that exists, the query is appended before the call (line 62) and the answer after it on success (line 93); on failure the query stays stored |
| FederatedTools.StaleHistory | federated-intelligence/modules/tools.py:57-71 | the forwarded history never contains the current query |
| FederatedTools.FreshSessionDropsQuery | federated-intelligence/modules/tools.py:66-71 | with a system prompt on a fresh session only [system] is sent, and Gemini sends the query with no history |
| FederatedTools.FreshSessionSendsQuery | federated-intelligence/modules/tools.py:66-71 | without a system prompt a fresh session sends the user query |
| FederatedTools.HealthOf | federated-intelligence/modules/tools.py:195-215 | `disabled` iff disabled; `error` iff enabled and no client |
| FederatedTools.CachedAllElsewhere | federated-intelligence/modules/tools.py:195-215 | checking health leaves other providers' cache entries alone |
| FederatedTools.HealthMapEntries | federated-intelligence/modules/tools.py:195-215 | one result per provider, each its own status |
| FederatedTools.HealthReport | federated-intelligence/modules/tools.py:189-217 | one result per configured provider, each its own status |
| FederatedTools.HandleCallTool | federated-intelligence/modules/tools.py:343-348 | an unknown name gives `unknown_tool`; success iff the handler replied without error; a handler exception propagates |
| FederatedTools.FederatedServer.constructor | federated-intelligence/modules/tools.py:8-14 | the handlers share the global `CONFIG`, the one `session_manager` and the class-level client cache |
| FederatedTools.FederatedServer.ConsultModel | federated-intelligence/modules/tools.py:35-111 | reply and directory equal `Consult`; the reply names the requested provider |
| FederatedTools.FederatedServer.ConsultInSession | federated-intelligence/modules/tools.py:56-107 | the session path of `Consult` |
| FederatedTools.FederatedServer.CreateSessionTool | federated-intelligence/modules/tools.py:155-158 | the new session is readable, empty, with the metadata or {} |
| FederatedTools.FederatedServer.ListSessionsTool | federated-intelligence/modules/tools.py:160-163 | the sorted rows and their count |
| FederatedTools.FederatedServer.HealthCheck | federated-intelligence/modules/tools.py:189-217 | the loop computes the health map and caches each client built |

## Left out

- Transport, tool schemas and logging set-up of the three servers: only the dispatchers' `unknown_tool`/`internal_error` wrapping is modelled, as an abstract outcome.
- `tool_get_active_session`, `tool_convergence_map`, `format_convergence_map` and `tool_get_metrics` of ensemble-reasoning: read-only report formatting.
- The metrics exporter and Prometheus endpoint, and every lock: the model is single-threaded.
- `round(…, 2)`, `:.2f` and float parsing: values are `real`, numbers arrive already parsed or refused.
- `log_session_event`, `save_session_snapshot` and `log_consultation`: they only write logs, and the first two are defined in neither ensemble-reasoning/modules/models.py nor lateral-synthesis/modules/persistence.py, the modules the handlers take them from; they are no-ops here.
- The divergence generator: the `draw` parameter stands for it and may return any concepts, duplicates included.
- Provider network calls, `list_models`, `tool_list_models` and `tool_consult_multiple_models`: a provider answer is the `answer` parameter, a health probe the `alive` parameter.
- `genai.configure`, the Gemini client's global side effect.
- `load_config` of lateral-synthesis and federated-intelligence: the configuration is a constant record.
- Aliasing: a session handed out by the stores is a value, so later in-place writes through an alias are not modelled.
- JSON decoding and file errors: history lines and session files arrive already classified as blank, invalid or a record. Arguments that are JSON null or of an unexpected type are out of scope except where the model lists them (`count`, `reconciles`, `surprising_connections`).
- Missing required arguments of the federated and ensemble handlers (a `KeyError` from `args[...]`) are not modelled; the arguments are parameters.
- A handler reads the clock once, so one `now` serves all of its timestamps.
- Directory listing order is modelled as write order.
- A federated message entry always carries a `timestamp`: an entry without one, which `Message` would default to the current time, is not modelled.
- A federated message entry whose `content` is not a string (accepted by `get_session`, but the preview's slice may refuse it) is not modelled; `content` is a string when present.
- Federated metadata values are modelled as strings.
- FederatedTools.FederatedServer.ConsultModel: assumes every session file with an `id` holds the session of its own name, which the store itself guarantees.
- EnsembleTools.EnsembleServer.ContributeTo: an error after the rate check leaves the queue pruned, not literally unchanged, because `is_rate_limited` prunes as it checks.
