# hypoAI backend core in Dafny

This project models the deterministic core of the hypoAI research backend. That core is the
code between its calls to language models, the NCBI E-utilities, MCP tool servers, open-data
portals and BioBERT. The project proves properties of that model. Every call to one of those
services is an oracle: a function-typed parameter or a field of a `Services` value. The code
that prepares requests and consumes replies is modelled concretely.

What is modelled, one Dafny module per file:

- **Literature discovery agent v2**
  (`agents/literature_discovery_agent_v2.py`). The main component.
  - `discovery_agent.dfy` (`DiscoveryAgent`): the agent as a class with its fields. Each
    step is proved to leave the state a function of `discovery_spec.dfy` (`DiscoverySpec`)
    describes. Those functions cover the bounded search loop of `discover_variables`, paper
    analysis, entity recognition, name standardisation and the statistics filter.
  - `ncbi_requests.dfy` (`NcbiRequests`): the NCBI rate limit and the retry loop, with an
    explicit clock.
  - `papers.dfy` (`Papers`): XML payload location, `safe_float`, variable parsing, and the
    abstract-label and PMC-section classification.
  - `entities.dfy` (`Entities`): the entity validity filter and NER collection.
  - `canonical.dfy` (`CanonicalNames`): `find_canonical_name`.
  - `standardize.dfy` (`Standardization`): the merge of duplicate variables, the role split
    and the statistics filter.
  - `discovery_output.dfy` (`DiscoveryOutput`): the two output builders.
- **Sliding-window rate limiter** (`rate_limiter.py`): `rate_limiter.dfy` (`RateLimiting`).
  The limiter is a class over two timestamped queues, with the current time passed in.
- **NHANES metadata cache and priority de-duplication** (`agents/nhanes_metadata_fetcher.py`):
  `metadata_fetcher.dfy` (`NhanesMetadata`).
- **Smart data-source selector** (`core/smart_selector.py`): `smart_selector.dfy`
  (`SmartSelector`). It covers term normalisation, the NHANES dictionary lookup, coverage and
  scoring, ranking, source selection, NHANES filters and the synthetic-data thresholds.
- **Research orchestrator** (`orchestrator.py`): `orchestrator.dfy` (`Orchestrator`). It
  covers the tool-use conversation loop (one limiter acquire and one usage record per turn),
  tool execution, result extraction, token estimation and tool conversion.
- **Dataset discovery agent** (`agents/dataset_discovery_agent.py`): `dataset_discovery.dfy`
  (`DatasetDiscovery`). It covers search tagging, batched LLM ranking and its merge, the stable
  sort, enrichment and the top-N slice.
- **Literature agent v1** (`agents/literature_agent.py`): `literature_agent.dfy`
  (`LiteratureAgent`). It covers `_find_common_elements`, the analysis loop and citation
  expansion. The code-fence stripping it shares with the other agents is in `fence.dfy`
  (`CodeFence`).
- `common.dfy` (`Common`) holds Option/Result and string helpers: `lower`, `strip`,
  `find`, `split`/`join`, `replace` and Python slicing. `sorting.dfy` (`Sorting`) is a stable
  descending sort, the model of Python's `sort(reverse=True)`.

Strings are `seq<char>`. Times are `real` seconds. Integers are unbounded, which matches Python.
Python's `//` occurs at `max_papers // max_iterations`, inside the loop where
`max_iterations > 0`, and at `len(text) // 4` in the token estimate, whose operands are never
negative. In both places Dafny's `/` gives the same result as Python's floor division. Where Python iterates a `set`,
the model uses first-found order, because CPython's order depends on string hashes. The
properties stated over such orders are order-free, with one exception: the exact match of
`find_canonical_name` returns the first case-insensitive match in `all_recognized`, and that list
puts every chemical before every disease. The order among the chemicals, or among the diseases,
stays unspecified.

## Model

| member | source | states |
|---|---|---|
| RateLimiting.DropOlderTokens | apps/backend/synthai_backend/rate_limiter.py:50-51 | only a prefix is dropped; every dropped entry is older than the cutoff and the first kept one is not |
| RateLimiting.DropOlderRequests | apps/backend/synthai_backend/rate_limiter.py:54-55 | the same for the request queue |
| RateLimiting.DropOlderIsSuffix | apps/backend/synthai_backend/rate_limiter.py:45-55 | pruning leaves exactly a suffix of each queue |
| RateLimiting.DropOlderLeavesRecent | apps/backend/synthai_backend/rate_limiter.py:45-55 | on a time-ordered queue, pruning keeps the order and every remaining stamp is at or after `now - window` |
| RateLimiting.DropOlderKeepsStampsInStep | apps/backend/synthai_backend/rate_limiter.py:45-55 | pruning the token queue and pruning its stamps drop the same entries, so the two queues stay in step |
| RateLimiting.DropOlderIdempotent | apps/backend/synthai_backend/rate_limiter.py:45-55 | pruning twice at the same instant changes nothing more |
| RateLimiting.DropOlderKeepsBound | apps/backend/synthai_backend/rate_limiter.py:45-55 | pruning keeps any upper bound on the stamps |
| RateLimiting.TotalTokensAppend | apps/backend/synthai_backend/rate_limiter.py:67 | the token sum is additive over concatenation |
| RateLimiting.WaitTime | apps/backend/synthai_backend/rate_limiter.py:72-103 | 0 unless the token limit (tokens + count > max) or the request limit (requests + 1 > max) is exceeded with a non-empty history; otherwise the largest of `oldest + window - now` over the exceeded limits |
| RateLimiting.WaitFromUsage | apps/backend/synthai_backend/rate_limiter.py:83-103 | the waits collected from the current usage give `WaitTime` |
| RateLimiting.WaitTimeNonNegative | apps/backend/synthai_backend/rate_limiter.py:83-103 | pruning and computing at the same instant never yields a negative wait |
| RateLimiting.NewEntrySurvives | apps/backend/synthai_backend/rate_limiter.py:124-129 | the entry appended by `acquire` survives the pruning done at its own instant |
| RateLimiting.WaitingFreesASlot | apps/backend/synthai_backend/rate_limiter.py:114-126 | after sleeping `wait + 0.1`, the pruned queue plus the new entry is no longer than before |
| RateLimiting.RecordActualAdjustsTotal | apps/backend/synthai_backend/rate_limiter.py:141-143 | replacing the last entry's count changes the total by exactly `actual - estimated` |
| RateLimiting.RateLimiter.constructor | apps/backend/synthai_backend/rate_limiter.py:23-43 | limits as given (defaults 40000/50/60) and both queues empty |
| RateLimiting.RateLimiter.CleanOldEntries | apps/backend/synthai_backend/rate_limiter.py:45-55 | both queues pruned at `now - window`; every remaining stamp is recent; the queues stay equal and ordered |
| RateLimiting.RateLimiter.GetCurrentUsage | apps/backend/synthai_backend/rate_limiter.py:57-70 | prunes, then returns the token sum and the request count of the pruned queues |
| RateLimiting.RateLimiter.CalculateWaitTime | apps/backend/synthai_backend/rate_limiter.py:72-103 | prunes, then returns `WaitTime` of the pruned queues, which is non-negative |
| RateLimiting.RateLimiter.Acquire | apps/backend/synthai_backend/rate_limiter.py:105-129 | stamps the request at `now`, or at `now + wait + 0.1` after a wait; appends `(stamp, estimate)` to both queues and prunes at the stamp; the new entry is last; every request stamp is at or before it |
| RateLimiting.RateLimiter.RecordRequest | apps/backend/synthai_backend/rate_limiter.py:124-126 | the request is appended to both queues at its stamp, the token queue is pruned at that stamp and ends with the new entry |
| RateLimiting.RateLimiter.RecordActualUsage | apps/backend/synthai_backend/rate_limiter.py:134-147 | replaces only the last entry's token count and keeps its stamp; does nothing on an empty history; leaves the request queue unchanged |
| RateLimiting.RateLimiter.GetUsageStats | apps/backend/synthai_backend/rate_limiter.py:149-166 | prunes; reports used, limit and `remaining = limit - used` (which may be negative) for tokens and requests |
| NhanesMetadata.NewVariableMetadata | apps/backend/synthai_backend/agents/nhanes_metadata_fetcher.py:27-47 | a non-empty unit is kept verbatim; only an absent or empty unit is extracted from the description |
| NhanesMetadata.CacheLookup | apps/backend/synthai_backend/agents/nhanes_metadata_fetcher.py:77-87 | a hit exactly when the key is present and `now - stored < ttl` (strict), returning the stored value |
| NhanesMetadata.CacheAfterLookup | apps/backend/synthai_backend/agents/nhanes_metadata_fetcher.py:77-87 | a read deletes an expired key and changes nothing otherwise |
| NhanesMetadata.SetThenGet | apps/backend/synthai_backend/agents/nhanes_metadata_fetcher.py:89-91 | after `set`, a `get` at the same instant with a positive TTL returns the value and changes nothing |
| NhanesMetadata.ExpiredStaysGone | apps/backend/synthai_backend/agents/nhanes_metadata_fetcher.py:77-87 | after a miss, a second read also misses and changes nothing |
| NhanesMetadata.MetadataCache.constructor | apps/backend/synthai_backend/agents/nhanes_metadata_fetcher.py:73-75 | empty cache with the given TTL (default 86400) |
| NhanesMetadata.MetadataCache.Get | apps/backend/synthai_backend/agents/nhanes_metadata_fetcher.py:77-87 | returns `CacheLookup` and leaves `CacheAfterLookup` |
| NhanesMetadata.MetadataCache.Set | apps/backend/synthai_backend/agents/nhanes_metadata_fetcher.py:89-91 | overwrites the key with `(now, value)` |
| NhanesMetadata.Priority | apps/backend/synthai_backend/agents/nhanes_metadata_fetcher.py:165 | html_scraper is 3, any source other than html_scraper/api/pytool is 0, and every priority is in 0..3 |
| NhanesMetadata.Lookup | apps/backend/synthai_backend/agents/nhanes_metadata_fetcher.py:162-177 | finds an entry with the given variable name, or none exactly when no entry has it |
| NhanesMetadata.Remove | apps/backend/synthai_backend/agents/nhanes_metadata_fetcher.py:174-177 | removes the first occurrence and keeps the rest in order |
| NhanesMetadata.LookupDistinct | apps/backend/synthai_backend/agents/nhanes_metadata_fetcher.py:162-177 | with distinct names, the lookup of an entry's name returns that entry |
| NhanesMetadata.RemoveKeepsDistinct | apps/backend/synthai_backend/agents/nhanes_metadata_fetcher.py:174-177 | removal keeps names distinct |
| NhanesMetadata.RemoveLookup | apps/backend/synthai_backend/agents/nhanes_metadata_fetcher.py:174-177 | removal makes the removed name absent and leaves other names' entries unchanged |
| NhanesMetadata.DedupStepLookup | apps/backend/synthai_backend/agents/nhanes_metadata_fetcher.py:166-177 | one merge step: a new name is added; a known name is replaced only by a strictly higher priority; names stay distinct |
| NhanesMetadata.DedupKeepsBest | apps/backend/synthai_backend/agents/nhanes_metadata_fetcher.py:162-177 | the merged list has distinct names, contains every input name, and keeps for each name the earliest entry of maximal priority |
| NhanesMetadata.DedupCoversInput | apps/backend/synthai_backend/agents/nhanes_metadata_fetcher.py:162-177 | every input name is in the output |
| NhanesMetadata.ReplacementMovesToEnd | apps/backend/synthai_backend/agents/nhanes_metadata_fetcher.py:174-177 | a replacement keeps the length and puts the new entry last |
| NhanesMetadata.DedupByPriority | apps/backend/synthai_backend/agents/nhanes_metadata_fetcher.py:162-177 | the loop computes `Dedup` and its output has distinct names |
| NhanesMetadata.GatherResults | apps/backend/synthai_backend/agents/nhanes_metadata_fetcher.py:154-160 | the records of the sources that answered, concatenated in source order; a source that raised contributes nothing |
| NhanesMetadata.MergeRecord | apps/backend/synthai_backend/agents/nhanes_metadata_fetcher.py:167-177 | one pass of the merge loop is `DedupStep`, keeps the names distinct and keeps `seen` naming exactly the kept records |
| NhanesMetadata.FetchAllSources | apps/backend/synthai_backend/agents/nhanes_metadata_fetcher.py:139-187 | a cached non-empty list is returned unchanged; a miss or an empty cached list leads to a merge of all gathered results, which is stored under the key |
| SmartSelector.NormalizeTerms | apps/backend/synthai_backend/core/smart_selector.py:279-300 | keeps length and order; each output is the mapping of `strip().lower()`, or that text with spaces replaced by `_` |
| SmartSelector.NormalizeTermNormalized | apps/backend/synthai_backend/core/smart_selector.py:279-300 | every normalised term is stripped, lower-case and free of spaces |
| SmartSelector.NormalizeTermIdempotent | apps/backend/synthai_backend/core/smart_selector.py:279-300 | normalising twice equals normalising once |
| SmartSelector.FirstMatch | apps/backend/synthai_backend/core/smart_selector.py:645-660 | the index of the first entry whose name or an alias equals the term ignoring case, or whose lower-cased label contains the term with `_` read as a space; -1 exactly when none matches |
| SmartSelector.FindNhanesVariable | apps/backend/synthai_backend/core/smart_selector.py:638-662 | returns the code of the first matching entry in dictionary order, or none |
| SmartSelector.FindInCategory | apps/backend/synthai_backend/core/smart_selector.py:647-660 | the index of the first matching entry of one category, or -1 |
| SmartSelector.EmptyDictionaryFindsNothing | apps/backend/synthai_backend/core/smart_selector.py:641-643 | an empty dictionary finds nothing |
| SmartSelector.PresentCodes | apps/backend/synthai_backend/core/smart_selector.py:626-636 | exactly the non-empty codes present in the dictionary |
| SmartSelector.GetNhanesVariables | apps/backend/synthai_backend/core/smart_selector.py:626-636 | lists the present non-empty codes in dictionary order |
| SmartSelector.FoundCodeIsListed | apps/backend/synthai_backend/core/smart_selector.py:626-662 | a non-empty code found by the lookup is one of the listed variables |
| SmartSelector.CoveragePartition | apps/backend/synthai_backend/core/smart_selector.py:341-344 | covered and missing variables partition the required ones, as a multiset and by membership |
| SmartSelector.Coverage | apps/backend/synthai_backend/core/smart_selector.py:344-347 | in [0, 1]; 1 when all required variables are covered; 0 when none is |
| SmartSelector.Score | apps/backend/synthai_backend/core/smart_selector.py:364 | the weighted score lies between the smallest and the largest component |
| SmartSelector.ScoreInUnitRange | apps/backend/synthai_backend/core/smart_selector.py:364 | components in [0, 1] give a score in [0, 1] |
| SmartSelector.RankNhanes | apps/backend/synthai_backend/core/smart_selector.py:332-381 | no ranking exactly when the `try` raised (lines 379-381); otherwise the NHANES ranking: score in [0, 1] and equal to the weighted score; available and missing variables partition the required ones; schema fit 0.9 exactly for the listed research areas; rows from the dry run (`estimated_rows or 0`), 10000 without an MCP client |
| SmartSelector.RankSeer | apps/backend/synthai_backend/core/smart_selector.py:383-423 | a SEER ranking exactly when an outcome mentions a cancer term; score in [0, 1] |
| SmartSelector.RankPhysionet | apps/backend/synthai_backend/core/smart_selector.py:425-464 | a PhysioNet ranking exactly when a variable mentions a signal term; score in [0, 1] |
| SmartSelector.RankSources | apps/backend/synthai_backend/core/smart_selector.py:302-330 | an error exactly when there is no research area (the source's `in None` raises) |
| SmartSelector.UnsortedRankingsProperties | apps/backend/synthai_backend/core/smart_selector.py:310-326 | NHANES is ranked exactly when its ranking did not raise; SEER and PhysioNet exactly when considered and applicable; never user upload; at most 3 rankings, scores in [0, 1] |
| SmartSelector.SortByScore | apps/backend/synthai_backend/core/smart_selector.py:328 | sorting keeps the rankings and their sources and orders them by score, descending |
| SmartSelector.RankSourcesProperties | apps/backend/synthai_backend/core/smart_selector.py:302-330 | the rankings are sorted by score, descending, with scores in [0, 1]; the same source-membership facts as above |
| SmartSelector.RankSourcesStable | apps/backend/synthai_backend/core/smart_selector.py:328 | rankings with equal scores keep their original relative order |
| SmartSelector.AvailablePreferred | apps/backend/synthai_backend/core/smart_selector.py:474-478 | the preferred sources that are ranked, in preference order |
| SmartSelector.ScoringSources | apps/backend/synthai_backend/core/smart_selector.py:481-486 | only ranked sources, those scoring above 0.5 |
| SmartSelector.SelectSources | apps/backend/synthai_backend/core/smart_selector.py:466-490 | at most 2 sources, all ranked; empty exactly when there are no rankings; the ranked preferences truncated to 2 when any exist; otherwise the top scorers above 0.5, or the first ranking when none scores above 0.5 |
| SmartSelector.SexCodes | apps/backend/synthai_backend/core/smart_selector.py:670-675 | codes are 1 or 2, at most one per entry |
| SmartSelector.SexCodesEmpty | apps/backend/synthai_backend/core/smart_selector.py:670-677 | no code exactly when no entry is male or female, ignoring case |
| SmartSelector.BuildNhanesFilters | apps/backend/synthai_backend/core/smart_selector.py:664-681 | RIDAGEYR exactly when the age range is truthy, and it is that range; RIAGENDR exactly when some sex maps to a code, and it holds those codes |
| SmartSelector.EvaluateSyntheticNeed | apps/backend/synthai_backend/core/smart_selector.py:683-707 | a recommendation exactly below 5000 rows: ctgan/10000 below 1000 rows, otherwise vae/20000; the suggested size always exceeds four times the rows |
| SmartSelector.SyntheticNeedMonotone | apps/backend/synthai_backend/core/smart_selector.py:687-707 | fewer rows never get a larger suggested size |
| Orchestrator.LlmTools | apps/backend/synthai_backend/orchestrator.py:218-229 | keeps length and order; name, description and schema carried over (`inputSchema` becomes `input_schema`) |
| Orchestrator.ConvertMcpToolsToLlmFormat | apps/backend/synthai_backend/orchestrator.py:218-229 | the loop builds `LlmTools` |
| Orchestrator.LlmToolsRoundTrip | apps/backend/synthai_backend/orchestrator.py:218-229 | each converted tool converts back to the MCP tool it came from |
| Orchestrator.EstimateText | apps/backend/synthai_backend/orchestrator.py:234-243 | the concatenated text starts with the system prompt |
| Orchestrator.EstimateTokens | apps/backend/synthai_backend/orchestrator.py:231-244 | the estimate is `len(text) // 4`, so at least `len(system_prompt) // 4` |
| Orchestrator.EstimateGrows | apps/backend/synthai_backend/orchestrator.py:231-244 | a longer conversation never gets a smaller estimate |
| Orchestrator.ToolUses | apps/backend/synthai_backend/orchestrator.py:338-341 | only tool-use blocks |
| Orchestrator.ToolUsesMembers | apps/backend/synthai_backend/orchestrator.py:338-341 | exactly the tool-use blocks of the content |
| Orchestrator.ToolResultFor | apps/backend/synthai_backend/orchestrator.py:341-366 | one result carrying the tool-use id; an error payload for tools not starting with `nhanes_`; `is_error` exactly when the NHANES call raised |
| Orchestrator.ToolResultsFor | apps/backend/synthai_backend/orchestrator.py:338-368 | one result per tool use, in order |
| Orchestrator.ExecuteTools | apps/backend/synthai_backend/orchestrator.py:324-368 | the loop returns the results for the content's tool uses |
| Orchestrator.ExecuteTool | apps/backend/synthai_backend/orchestrator.py:341-366 | one tool call gives `ToolResultFor` |
| Orchestrator.ToolResultsMatchUses | apps/backend/synthai_backend/orchestrator.py:338-368 | results match tool uses one to one, by position and id |
| Orchestrator.NoResultsWithoutToolUse | apps/backend/synthai_backend/orchestrator.py:338-368 | no results exactly when the content has no tool use |
| Orchestrator.AppendNewProperties | apps/backend/synthai_backend/orchestrator.py:389-411 | appending only absent items keeps the prefix, adds exactly the new members, and keeps the list duplicate-free |
| Orchestrator.AddNew | apps/backend/synthai_backend/orchestrator.py:389-411 | the loop appends only absent items |
| Orchestrator.AccumulateProperties | apps/backend/synthai_backend/orchestrator.py:378-411 | files, variables and cycles grow to the union of what they held and what the tool results carry, with no duplicates added |
| Orchestrator.ExtractFromBlocks | apps/backend/synthai_backend/orchestrator.py:378-411 | one message's blocks are accumulated in order |
| Orchestrator.ExtractResearchResults | apps/backend/synthai_backend/orchestrator.py:370-413 | keeps the other fields; the lists gain exactly the items found in the history, without duplicates; cycles sorted descending |
| Orchestrator.ExtractedProperties | apps/backend/synthai_backend/orchestrator.py:370-413 | sorting the accumulated cycles keeps membership and distinctness |
| Orchestrator.SelectProvider | apps/backend/synthai_backend/orchestrator.py:29-56 | Anthropic when its key is set, else OpenAI when that key is set, else an error |
| Orchestrator.HistoryLength | apps/backend/synthai_backend/orchestrator.py:152-176 | each turn adds one or two messages to the history |
| Orchestrator.HistoryPrefix | apps/backend/synthai_backend/orchestrator.py:152-176 | the history only grows |
| Orchestrator.ActualTokens | apps/backend/synthai_backend/orchestrator.py:149 | the reported total, or the estimate when none is reported |
| Orchestrator.Follow | apps/backend/synthai_backend/orchestrator.py:152-183 | appends the assistant message, then the tool-result message when there are results, to both lists; stores the content as reasoning on `end_turn`; stops unless `tool_use` produced results |
| Orchestrator.TurnsFollowAt | apps/backend/synthai_backend/orchestrator.py:135-183 | every recorded turn was taken on the messages accumulated before it |
| Orchestrator.ResearchOrchestrator.constructor | apps/backend/synthai_backend/orchestrator.py:29-56 | the chosen provider, no client started, an empty limiter |
| Orchestrator.ResearchOrchestrator.StartMcpClients | apps/backend/synthai_backend/orchestrator.py:58-62 | the NHANES client is started |
| Orchestrator.ResearchOrchestrator.StopMcpClients | apps/backend/synthai_backend/orchestrator.py:64-69 | the NHANES client is stopped |
| Orchestrator.ResearchOrchestrator.TakeTurn | apps/backend/synthai_backend/orchestrator.py:138-150 | one estimate, one `acquire`, one LLM call, one `record_actual_usage` with the reported or estimated tokens: the turn is stamped at `AdmitAt`, and the new token history is `Admitted` with the estimate replaced by the recorded count |
| Orchestrator.ResearchOrchestrator.Admit | apps/backend/synthai_backend/orchestrator.py:138-140 | the request is admitted no earlier than the clock, at the instant `AdmitAt` computes from the old token history; the token history becomes `Admitted` (pruned, the estimate appended, pruned again), the request history its stamps, and the limiter stays valid |
| Orchestrator.ResearchOrchestrator.Converse | apps/backend/synthai_backend/orchestrator.py:135-183 | at most `max_iterations` turns; every turn but the last continued with tool results; an early stop ends on a non-continuing turn; history and reasoning follow the turns; the limiter's token history is the fold `TokensAfter` of the turns and every turn was stamped by the limiter (`Throttled`) |
| Orchestrator.ResearchOrchestrator.Step | apps/backend/synthai_backend/orchestrator.py:135-183 | one pass of the loop adds exactly one turn and keeps the conversation invariant and the limiter fold |
| Orchestrator.ResearchOrchestrator.ConductResearch | apps/backend/synthai_backend/orchestrator.py:71-190 | an error with no turn when the client is not started; otherwise the conversation, then result lists holding exactly the tool-result items, duplicate-free, with cycles sorted descending; the limiter ends at the fold `TokensAfter` of the turns from its starting history, each turn stamped at the instant the limiter admitted it |
| Orchestrator.ThrottledSnoc | apps/backend/synthai_backend/orchestrator.py:138-150 | one more turn is one more `acquire` and `record_actual_usage` step of the limiter fold |
| Orchestrator.TokensAfterEndsWithTurn | apps/backend/synthai_backend/orchestrator.py:140-150 | after a turn the limiter's newest entry is that turn's recorded count at its stamp |
| Sorting.SortStringsDesc | apps/backend/synthai_backend/orchestrator.py:413 | a permutation sorted in descending string order |
| Sorting.SortDescSorted | apps/backend/synthai_backend/agents/dataset_discovery_agent.py:370 | the stable sort orders its output by key, descending |
| Sorting.SortDescStable | apps/backend/synthai_backend/agents/dataset_discovery_agent.py:370 | items with equal keys keep their input order |
| DatasetDiscovery.Tagged | apps/backend/synthai_backend/agents/dataset_discovery_agent.py:244-255 | the hit's own fields win; `source`, `portal` and `base_url` are added when absent |
| DatasetDiscovery.TagAll | apps/backend/synthai_backend/agents/dataset_discovery_agent.py:240-283 | one tagged result per origin, in order |
| DatasetDiscovery.SearchQuery | apps/backend/synthai_backend/agents/dataset_discovery_agent.py:236-287 | one query's tagged results, or none when it fails |
| DatasetDiscovery.SearchPortal | apps/backend/synthai_backend/agents/dataset_discovery_agent.py:233-287 | a portal's queries in order |
| DatasetDiscovery.ExecuteSearches | apps/backend/synthai_backend/agents/dataset_discovery_agent.py:216-292 | all portals' tagged results, in order |
| DatasetDiscovery.SearchOriginsFromSearchablePortals | apps/backend/synthai_backend/agents/dataset_discovery_agent.py:240-283 | every result comes from a listed ckan or soda portal |
| DatasetDiscovery.PortalOriginsFrom | apps/backend/synthai_backend/agents/dataset_discovery_agent.py:240-283 | results from a portal carry that portal |
| DatasetDiscovery.ResultSourceIsPortalType | apps/backend/synthai_backend/agents/dataset_discovery_agent.py:244-276 | an untagged hit gets the portal type as its source |
| DatasetDiscovery.OtherPortalTypesAddNothing | apps/backend/synthai_backend/agents/dataset_discovery_agent.py:240-283 | other portal types add nothing |
| DatasetDiscovery.BatchesCover | apps/backend/synthai_backend/agents/dataset_discovery_agent.py:310-314 | consecutive batches of at most 20 cover the input exactly once |
| DatasetDiscovery.MergeFromBatches | apps/backend/synthai_backend/agents/dataset_discovery_agent.py:313-367 | the ranking loop merges exactly the batches `BatchesFrom` cuts, in order, so with `BatchesCover` every dataset is sent to the LLM once, in a batch of at most 20 |
| DatasetDiscovery.BatchAt | apps/backend/synthai_backend/agents/dataset_discovery_agent.py:311 | the batch is the slice `[i : i + 20]` |
| DatasetDiscovery.Ranked | apps/backend/synthai_backend/agents/dataset_discovery_agent.py:362-366 | a copy of the indexed dataset (negative indices as in Python) with score, reason and variables added |
| DatasetDiscovery.MergeProperties | apps/backend/synthai_backend/agents/dataset_discovery_agent.py:360-367 | one dataset per ranking with `index < len(batch)`; an error exactly when an index is below `-len(batch)`; every merged entry has a score |
| DatasetDiscovery.MergeBatch | apps/backend/synthai_backend/agents/dataset_discovery_agent.py:360-367 | the loop computes `Merge` |
| DatasetDiscovery.MergeErrorPersists | apps/backend/synthai_backend/agents/dataset_discovery_agent.py:360-367 | an index error ends the merge |
| DatasetDiscovery.RankBatch | apps/backend/synthai_backend/agents/dataset_discovery_agent.py:316-367 | one batch ranked by the LLM, with its fence stripped and the reply parsed |
| DatasetDiscovery.RankDatasets | apps/backend/synthai_backend/agents/dataset_discovery_agent.py:294-379 | `[]` for no input; otherwise the batches merged, then sorted |
| DatasetDiscovery.RankAllBatches | apps/backend/synthai_backend/agents/dataset_discovery_agent.py:313-367 | the batches ranked and merged in input order, stopping at the first batch whose reply does not parse |
| DatasetDiscovery.RankedSorted | apps/backend/synthai_backend/agents/dataset_discovery_agent.py:370 | the output is a permutation of the merged list, sorted by score descending (missing counts as 0), and stable |
| DatasetDiscovery.NegativeIndexScoresLast | apps/backend/synthai_backend/agents/dataset_discovery_agent.py:361-362 | index -1 passes the check and copies the batch's last dataset |
| DatasetDiscovery.EnrichAll | apps/backend/synthai_backend/agents/dataset_discovery_agent.py:381-434 | one entry per input, in order |
| DatasetDiscovery.EnrichedKeepsMembers | apps/backend/synthai_backend/agents/dataset_discovery_agent.py:387-432 | enrichment only adds access fields; an entry without an id is unchanged |
| DatasetDiscovery.EnrichDatasetInfo | apps/backend/synthai_backend/agents/dataset_discovery_agent.py:381-434 | the loop computes `EnrichAll`, including failed lookups |
| DatasetDiscovery.Discover | apps/backend/synthai_backend/agents/dataset_discovery_agent.py:65-128 | fails exactly when ranking fails; otherwise the top `max_datasets` enriched, with `total_found` and `total_returned = len(datasets) <= max_datasets` |
| CodeFence.UnfencedUnchanged | apps/backend/synthai_backend/agents/literature_agent.py:250-257 | text not starting with the fence is only stripped |
| CodeFence.FencedHasNoMarker | apps/backend/synthai_backend/agents/literature_agent.py:250-257 | fenced text loses every fence marker |
| CodeFence.FenceRoundTrip | apps/backend/synthai_backend/agents/literature_agent.py:250-257 | a payload wrapped in a fence with a language tag comes back unchanged |
| LiteratureAgent.FirstOccurrencesProperties | apps/backend/synthai_backend/agents/literature_agent.py:525-529 | the counter's keys: every item once, in first-occurrence order |
| LiteratureAgent.KeepFrequent | apps/backend/synthai_backend/agents/literature_agent.py:529 | keeps exactly the items counted at least `min_count` times |
| LiteratureAgent.CommonElementsAreFrequent | apps/backend/synthai_backend/agents/literature_agent.py:525-529 | the result holds each item occurring at least `min_count` times, exactly once |
| LiteratureAgent.CommonElementsInFirstOccurrenceOrder | apps/backend/synthai_backend/agents/literature_agent.py:525-529 | the result is in first-occurrence order |
| LiteratureAgent.Parsing | apps/backend/synthai_backend/agents/literature_agent.py:259-268 | only papers whose analysis parsed, each with its analysis |
| LiteratureAgent.AnalyzeAllAppendsParsing | apps/backend/synthai_backend/agents/literature_agent.py:165-283 | papers and variables grow only by the papers whose analysis parsed |
| LiteratureAgent.ParsingFromInput | apps/backend/synthai_backend/agents/literature_agent.py:259-268 | every appended paper is an input paper with its parsed analysis |
| LiteratureAgent.CitingConsidered | apps/backend/synthai_backend/agents/literature_agent.py:444 | at most 5 citing PMIDs per paper |
| LiteratureAgent.FollowCitationsProperties | apps/backend/synthai_backend/agents/literature_agent.py:444-447 | following citations only appends, adds at most one paper per PMID and keeps PMIDs distinct |
| LiteratureAgent.LiteratureDiscoveryAgent.FollowCitingPapers | apps/backend/synthai_backend/agents/literature_agent.py:444-447 | the state becomes `FollowCitations` of the old one over the linked PMIDs |
| LiteratureAgent.ExpandAllProperties | apps/backend/synthai_backend/agents/literature_agent.py:419-447 | citation expansion adds at most 5 papers per paper and keeps PMIDs distinct |
| LiteratureAgent.AnalysedCitationSkipped | apps/backend/synthai_backend/agents/literature_agent.py:445-446 | an already analysed PMID is skipped |
| LiteratureAgent.PapersFor | apps/backend/synthai_backend/agents/literature_agent.py:99-163 | one unanalysed paper per PMID, in order |
| LiteratureAgent.LiteratureDiscoveryAgent.constructor | apps/backend/synthai_backend/agents/literature_agent.py:32-49 | empty findings |
| LiteratureAgent.LiteratureDiscoveryAgent.FindRelevantPapers | apps/backend/synthai_backend/agents/literature_agent.py:99-163 | the search results, at most `max_results` |
| LiteratureAgent.LiteratureDiscoveryAgent.AnalyzePapersInDepth | apps/backend/synthai_backend/agents/literature_agent.py:165-283 | the state becomes `AnalyzeAll` of the papers |
| LiteratureAgent.LiteratureDiscoveryAgent.ExpandViaCitations | apps/backend/synthai_backend/agents/literature_agent.py:419-447 | the state becomes `ExpandAll` of the papers |
| LiteratureAgent.LiteratureDiscoveryAgent.Analyze | apps/backend/synthai_backend/agents/literature_agent.py:68-97 | deep analysis of the first `min(10, n)` papers, citations of the first 5 of those; a `KeyError` when the first analysed paper has no publication date (line 471); otherwise a summary exactly when the synthesis parses, with variable and gene sets equal to those found |
| LiteratureAgent.CitingPapersHaveNoPubdate | apps/backend/synthai_backend/agents/literature_agent.py:445-447 | following citations keeps what was analysed and every paper it adds has no publication date |
| LiteratureAgent.CitationFirstFailsOnPubdate | apps/backend/synthai_backend/agents/literature_agent.py:471 | an agent with nothing analysed whose first analysed paper comes from a citation hits the missing-`pubdate` failure |
| LiteratureAgent.AnalyzeAddsAtMost35 | apps/backend/synthai_backend/agents/literature_agent.py:85-92 | `analyze` appends to the findings and adds at most 10 + 5 × 5 papers |
| NcbiRequests.NextStamp | apps/backend/synthai_backend/agents/literature_discovery_agent_v2.py:102-108 | the recorded stamp is at or after `now` and at least the minimum interval after the previous one |
| NcbiRequests.NcbiRequester.constructor | apps/backend/synthai_backend/agents/literature_discovery_agent_v2.py:57-58 | no previous request; a 0.11 s minimum interval |
| NcbiRequests.NcbiRequester.RateLimit | apps/backend/synthai_backend/agents/literature_discovery_agent_v2.py:102-108 | sleeps when needed and records `NextStamp` |
| NcbiRequests.AttemptCount | apps/backend/synthai_backend/agents/literature_discovery_agent_v2.py:134-161 | at most `max_retries` requests; exhaustion sends exactly `max_retries` |
| NcbiRequests.AttemptSpacing | apps/backend/synthai_backend/agents/literature_discovery_agent_v2.py:134-161 | the first request is spaced from the previous stamp; after attempt k the next waits at least `2^k` and the minimum interval |
| NcbiRequests.AttemptResult | apps/backend/synthai_backend/agents/literature_discovery_agent_v2.py:140-156 | success is the last attempt's body; a non-retryable status (not 429, below 500) is raised from the last attempt without retry |
| NcbiRequests.Attempts | apps/backend/synthai_backend/agents/literature_discovery_agent_v2.py:134-168 | the retry loop as intended: never reads an unbound response |
| NcbiRequests.NetworkFailuresExhaustRetries | apps/backend/synthai_backend/agents/literature_discovery_agent_v2.py:134-168 | network failures on every attempt end in "retries exhausted" |
| NcbiRequests.NcbiRequester.RequestWithRetry | apps/backend/synthai_backend/agents/literature_discovery_agent_v2.py:110-168 | the result, send stamps, clock and last stamp are those of `Attempts` |
| NcbiRequests.NetworkFailuresLeaveResponseUnbound | apps/backend/synthai_backend/agents/literature_discovery_agent_v2.py:158-168 | as written, network failures on every attempt reach the final raise with `response` unbound |
| Papers.FirstChild | apps/backend/synthai_backend/agents/literature_discovery_agent_v2.py:1080 | the first child with the tag, or none exactly when there is none |
| Papers.FindText | apps/backend/synthai_backend/agents/literature_discovery_agent_v2.py:1080 | the default when no child has the tag |
| Papers.ChildrenTagged | apps/backend/synthai_backend/agents/literature_discovery_agent_v2.py:1082 | exactly the children with the tag |
| Papers.TextsOf | apps/backend/synthai_backend/agents/literature_discovery_agent_v2.py:1082 | only non-empty texts |
| Papers.XmlPayloadCut | apps/backend/synthai_backend/agents/literature_discovery_agent_v2.py:1152-1160 | when `<tag>` precedes `</tag>`, the payload is exactly the slice from the first `<tag>` to the end of the first `</tag>` |
| Papers.XmlPayloadWhole | apps/backend/synthai_backend/agents/literature_discovery_agent_v2.py:1159-1162 | without a closing tag the whole (unfenced) text is parsed |
| Papers.XmlPayloadReversedTags | apps/backend/synthai_backend/agents/literature_discovery_agent_v2.py:1159-1160 | a closing tag before the opening one gives an empty slice |
| Papers.ExtractXml | apps/backend/synthai_backend/agents/literature_discovery_agent_v2.py:1142-1170 | a parse failure yields an empty element with the root tag, not an error |
| Papers.EmptyElementDefaults | apps/backend/synthai_backend/agents/literature_discovery_agent_v2.py:1169-1170 | every lookup on the empty element falls back to its default |
| Papers.SafeFloat | apps/backend/synthai_backend/agents/literature_discovery_agent_v2.py:671-678 | none for a missing value, for the missing-value markers ignoring case and for unparsable text; otherwise the parsed number |
| Papers.SafeFloatMarkers | apps/backend/synthai_backend/agents/literature_discovery_agent_v2.py:673-674 | None, "", "Unknown", "N/A", "NA" and "None" give none |
| Papers.VariableFromFacts | apps/backend/synthai_backend/agents/literature_discovery_agent_v2.py:681-700 | citations are exactly `["PMID:<pmid>"]`; a range exactly when a range element exists; role `predictor` and distribution `unknown` by default |
| Papers.AnalysisFromFacts | apps/backend/synthai_backend/agents/literature_discovery_agent_v2.py:668-706 | one variable per `variable` element, each cited by the paper |
| Papers.LookupAssign | apps/backend/synthai_backend/agents/literature_discovery_agent_v2.py:281-289 | assigning a section key overwrites it and leaves the others |
| Papers.AbstractSectionKey | apps/backend/synthai_backend/agents/literature_discovery_agent_v2.py:279-289 | labels map into background/methods/results/conclusions; `full` exactly for an unlabelled section |
| Papers.AbstractSectionsPresent | apps/backend/synthai_backend/agents/literature_discovery_agent_v2.py:275-289 | a section is present exactly when some label maps to it |
| Papers.AbstractSectionsLast | apps/backend/synthai_backend/agents/literature_discovery_agent_v2.py:275-289 | the last section with a label wins |
| Papers.PmcSectionKey | apps/backend/synthai_backend/agents/literature_discovery_agent_v2.py:370-379 | a section kind exactly when the title holds one of the keywords |
| Papers.PmcMethodsBeforeResults | apps/backend/synthai_backend/agents/literature_discovery_agent_v2.py:370-375 | a title naming both methods and results files as methods |
| Papers.PmcSectionKinds | apps/backend/synthai_backend/agents/literature_discovery_agent_v2.py:361-379 | only the five section kinds, each once |
| Entities.ValidAbbreviation | apps/backend/synthai_backend/agents/literature_discovery_agent_v2.py:776-804 | "CRP" is a valid entity |
| Entities.PatientCountRejected | apps/backend/synthai_backend/agents/literature_discovery_agent_v2.py:798-802 | a digits-separator-digits text such as "2, 335 patients" is rejected |
| Entities.FragmentsRejected | apps/backend/synthai_backend/agents/literature_discovery_agent_v2.py:778-792 | a word-piece fragment ("##ose") and a two-letter word are rejected |
| Entities.Accepted | apps/backend/synthai_backend/agents/literature_discovery_agent_v2.py:814-825 | only valid entities |
| Entities.AcceptedMembers | apps/backend/synthai_backend/agents/literature_discovery_agent_v2.py:814-825 | exactly the stripped words of hits scoring above 0.85 that are valid |
| Entities.AddNew | apps/backend/synthai_backend/agents/literature_discovery_agent_v2.py:817-825 | adds the new members, keeps the existing ones first and adds no duplicate |
| Entities.PaperText | apps/backend/synthai_backend/agents/literature_discovery_agent_v2.py:744-768 | a paper's text is non-blank and bounded |
| Entities.PaperTexts | apps/backend/synthai_backend/agents/literature_discovery_agent_v2.py:744-768 | at most one non-blank, bounded text per paper |
| Entities.RecognizedMembers | apps/backend/synthai_backend/agents/literature_discovery_agent_v2.py:806-831 | the chemicals (diseases) are exactly the accepted hits of the chemical (disease) pipeline over the texts |
| Entities.RecognizedOnce | apps/backend/synthai_backend/agents/literature_discovery_agent_v2.py:806-837 | each entity recorded once |
| Entities.RecognizedValid | apps/backend/synthai_backend/agents/literature_discovery_agent_v2.py:806-837 | every recorded entity is valid |
| Entities.CollectEntities | apps/backend/synthai_backend/agents/literature_discovery_agent_v2.py:806-831 | the loop computes `RecognizedIn` |
| Entities.ExtractMedicalEntities | apps/backend/synthai_backend/agents/literature_discovery_agent_v2.py:727-838 | nothing when the pipelines are not loaded; otherwise the entities recognised in the paper texts |
| CanonicalNames.TokenList | apps/backend/synthai_backend/agents/literature_discovery_agent_v2.py:886-887 | word tokens are non-empty runs of word characters |
| CanonicalNames.MatchOf | apps/backend/synthai_backend/agents/literature_discovery_agent_v2.py:878-905 | an entity is a candidate only with 3+ characters and a word-overlap ratio above 0.5, or with no overlap, both 5+ characters and one inside the other (0.8 entity in name, 0.7 name in entity) |
| CanonicalNames.Matches | apps/backend/synthai_backend/agents/literature_discovery_agent_v2.py:878-905 | the candidates, each a listed entity |
| CanonicalNames.BestMatch | apps/backend/synthai_backend/agents/literature_discovery_agent_v2.py:905-907 | highest score, then shortest; the first such candidate |
| CanonicalNames.ExactMatch | apps/backend/synthai_backend/agents/literature_discovery_agent_v2.py:867-870 | the first entity in list order spelt the same ignoring case (no earlier entity is), or none exactly when none is |
| CanonicalNames.ChemicalsMatchFirst | apps/backend/synthai_backend/agents/literature_discovery_agent_v2.py:855-870 | `all_recognized` lists the chemicals before the diseases, so a chemical spelt like the name is returned over a disease spelt the same |
| CanonicalNames.FindCanonicalName | apps/backend/synthai_backend/agents/literature_discovery_agent_v2.py:859-908 | the name itself or a listed entity; a name under 3 characters is kept |
| CanonicalNames.CanonicalIsBestCandidate | apps/backend/synthai_backend/agents/literature_discovery_agent_v2.py:874-907 | without an exact spelling, the result is a best candidate |
| CanonicalNames.UnmatchedNameKept | apps/backend/synthai_backend/agents/literature_discovery_agent_v2.py:908 | no candidate keeps the name |
| CanonicalNames.SpellingVariantsMerge | apps/backend/synthai_backend/agents/literature_discovery_agent_v2.py:869-872 | spellings that differ only in case map to the same entity |
| CanonicalNames.ShortEntityNeverCandidate | apps/backend/synthai_backend/agents/literature_discovery_agent_v2.py:880-881 | entities under 3 characters are never candidates |
| Standardization.UnionCitations | apps/backend/synthai_backend/agents/literature_discovery_agent_v2.py:925 | the union of both citation lists, without duplicates |
| Standardization.FindName | apps/backend/synthai_backend/agents/literature_discovery_agent_v2.py:913-919 | the first entry with the name, or none exactly when none has it |
| Standardization.Deduplicate | apps/backend/synthai_backend/agents/literature_discovery_agent_v2.py:911-941 | the loop computes `Dedup` |
| Standardization.AddVariable | apps/backend/synthai_backend/agents/literature_discovery_agent_v2.py:914-941 | a variable is merged into the entry of its canonical name when there is one, else added under that name |
| Standardization.Group | apps/backend/synthai_backend/agents/literature_discovery_agent_v2.py:913-941 | the inputs with one canonical name |
| Standardization.DedupNamesDistinct | apps/backend/synthai_backend/agents/literature_discovery_agent_v2.py:911-941 | each canonical name occurs once |
| Standardization.DedupEntry | apps/backend/synthai_backend/agents/literature_discovery_agent_v2.py:911-941 | a canonical name is present exactly when some input maps to it, and its entry is the merge of those inputs |
| Standardization.MergeGroupKeepsFirst | apps/backend/synthai_backend/agents/literature_discovery_agent_v2.py:920-941 | the merged entry keeps the first occurrence's role, type, relationship, units and reasoning |
| Standardization.MergeGroupCitations | apps/backend/synthai_backend/agents/literature_discovery_agent_v2.py:924-926 | its citations are the union of all merged citations |
| Standardization.MergeGroupRange | apps/backend/synthai_backend/agents/literature_discovery_agent_v2.py:928-932 | the first range with a mean replaces one without a mean |
| Standardization.MergeGroupDistribution | apps/backend/synthai_backend/agents/literature_discovery_agent_v2.py:934-938 | the first informative distribution replaces an empty or `unknown` one |
| Standardization.SplitMembers | apps/backend/synthai_backend/agents/literature_discovery_agent_v2.py:959-961 | the variables side holds exactly the non-confounders and the confounders side exactly the confounders |
| Standardization.SplitPartitions | apps/backend/synthai_backend/agents/literature_discovery_agent_v2.py:959-961 | the split partitions the merged list |
| Standardization.SplitDisjoint | apps/backend/synthai_backend/agents/literature_discovery_agent_v2.py:959-961 | no name appears in both parts |
| Standardization.StandardizeVariableNames | apps/backend/synthai_backend/agents/literature_discovery_agent_v2.py:840-963 | variables and confounders are the role split of the merged list |
| Standardization.KeywordFlagsExactly | apps/backend/synthai_backend/agents/literature_discovery_agent_v2.py:992-1000 | only hr/or/rr/p-value/ci/mortality/survival ever flag a name; "hazard ratio" and the others do not |
| Standardization.FlaggingKeywords | apps/backend/synthai_backend/agents/literature_discovery_agent_v2.py:991-1000 | a name is flagged exactly when it contains one of those seven |
| Standardization.DropStatistics | apps/backend/synthai_backend/agents/literature_discovery_agent_v2.py:1017-1032 | removes exactly the flagged entries |
| Standardization.DropStatisticsOrder | apps/backend/synthai_backend/agents/literature_discovery_agent_v2.py:1017-1032 | the survivors keep their order |
| Standardization.FilterNonVariablesAsWritten | apps/backend/synthai_backend/agents/literature_discovery_agent_v2.py:965-1039 | the filter as written: removes exactly the entries matched by a keyword substring or a ratio-like range |
| Standardization.HistoryDroppedAsWritten | apps/backend/synthai_backend/agents/literature_discovery_agent_v2.py:996-1000 | as written, "Smoking history" is removed (it contains "or") |
| Standardization.CortisolDroppedAsWritten | apps/backend/synthai_backend/agents/literature_discovery_agent_v2.py:996-1000 | as written, "Cortisol" is removed |
| Standardization.FilterNonVariables | apps/backend/synthai_backend/agents/literature_discovery_agent_v2.py:965-1039 | the filter as intended, stated on its own (the discovery pipeline keeps the filter as written): removes exactly the entries with a whole-word hr/or/rr/ci, a p-value/mortality/survival substring, or a ratio-like range |
| Standardization.ByWordNarrower | apps/backend/synthai_backend/agents/literature_discovery_agent_v2.py:988-1015 | the intended filter removes nothing that the written one keeps |
| Standardization.HazardRatioAbbreviationDropped | apps/backend/synthai_backend/agents/literature_discovery_agent_v2.py:996-1000 | "HR" is still removed |
| Standardization.SingleWordNameKept | apps/backend/synthai_backend/agents/literature_discovery_agent_v2.py:996-1000 | a one-word name that is no abbreviation or keyword is kept |
| Standardization.CortisolKeptByWord | apps/backend/synthai_backend/agents/literature_discovery_agent_v2.py:996-1000 | "Cortisol" is kept |
| DiscoverySpec.StrategyFallback | apps/backend/synthai_backend/agents/literature_discovery_agent_v2.py:486-535 | an unparsable strategy reply gives an empty query and empty lists |
| DiscoverySpec.ExpandFallback | apps/backend/synthai_backend/agents/literature_discovery_agent_v2.py:1077-1083 | an unparsable expansion keeps the current query |
| DiscoverySpec.AssemblePaper | apps/backend/synthai_backend/agents/literature_discovery_agent_v2.py:555-578 | the paper carries its PMID, no analysis, the PMC lookup, no full text without a PMC id, and empty fields without a summary |
| DiscoverySpec.SearchPubmed | apps/backend/synthai_backend/agents/literature_discovery_agent_v2.py:537-580 | at most `max_results` unanalysed papers, in search order |
| DiscoverySpec.AnalyzedPaperFacts | apps/backend/synthai_backend/agents/literature_discovery_agent_v2.py:587-711 | the paper gains an analysis and the names of its variables, nothing else changes, and each variable cites it |
| DiscoverySpec.AnalyzedPaperAt | apps/backend/synthai_backend/agents/literature_discovery_agent_v2.py:582-711 | the `k`-th analysed paper is the analysis of the `k`-th paper found |
| DiscoverySpec.AnalyzeAllPapers | apps/backend/synthai_backend/agents/literature_discovery_agent_v2.py:582-725 | analysed papers are appended in order; no PMID is skipped |
| DiscoverySpec.AnalyzeAllCites | apps/backend/synthai_backend/agents/literature_discovery_agent_v2.py:582-725 | every new variable or confounder cites one of the analysed papers |
| DiscoverySpec.AddAnalysedSnoc | apps/backend/synthai_backend/agents/literature_discovery_agent_v2.py:711-719 | recording one more analysed paper appends it and files its variables by role |
| DiscoverySpec.LoadNer | apps/backend/synthai_backend/agents/literature_discovery_agent_v2.py:72-100 | after loading the pipelines are loaded or failed |
| DiscoverySpec.NerLoadedOnce | apps/backend/synthai_backend/agents/literature_discovery_agent_v2.py:735-742 | loading is attempted once |
| DiscoverySpec.RecognizedEntitiesValid | apps/backend/synthai_backend/agents/literature_discovery_agent_v2.py:727-838 | recognised entities are valid and recorded once |
| DiscoverySpec.StandardizedFilteredClean | apps/backend/synthai_backend/agents/literature_discovery_agent_v2.py:840-1039 | after standardising and filtering with the filter as written, the roles are split, no entry the substring test flags remains and each name occurs once |
| DiscoverySpec.RoundPapers | apps/backend/synthai_backend/agents/literature_discovery_agent_v2.py:438-458 | a round appends at most `max_results` analysed papers |
| DiscoverySpec.RoundClean | apps/backend/synthai_backend/agents/literature_discovery_agent_v2.py:438-458 | a round leaves a clean state (`Clean`: roles split, nothing `is_study_statistic` flags as written, each name once) |
| DiscoverySpec.IterateCount | apps/backend/synthai_backend/agents/literature_discovery_agent_v2.py:435-472 | the loop runs at least one round when any remain and never more than allowed |
| DiscoverySpec.IterateStopsEarly | apps/backend/synthai_backend/agents/literature_discovery_agent_v2.py:461-467 | stopping before the last iteration means `len(variables) >= min_variables` (confounders not counted) |
| DiscoverySpec.IterateClean | apps/backend/synthai_backend/agents/literature_discovery_agent_v2.py:435-472 | the state after any round is clean, by the filter as written |
| DiscoverySpec.IteratePapers | apps/backend/synthai_backend/agents/literature_discovery_agent_v2.py:435-472 | the rounds append at most their share of papers each |
| DiscoverySpec.PerRound | apps/backend/synthai_backend/agents/literature_discovery_agent_v2.py:446 | `max_papers // max_iterations`, the floor quotient |
| DiscoverySpec.SynthesisFallback | apps/backend/synthai_backend/agents/literature_discovery_agent_v2.py:1131-1138 | an unparsable synthesis has empty fields and confidence `medium` |
| DiscoverySpec.DiscoverCount | apps/backend/synthai_backend/agents/literature_discovery_agent_v2.py:435-472 | no round without iterations; otherwise 1 to `max_iterations` rounds; stopping early means enough variables |
| DiscoverySpec.DiscoverClean | apps/backend/synthai_backend/agents/literature_discovery_agent_v2.py:435-472 | the discovered variables and confounders are clean, by the filter as written |
| DiscoverySpec.DiscoverPapers | apps/backend/synthai_backend/agents/literature_discovery_agent_v2.py:435-472 | discovery appends at most `max_papers` papers |
| DiscoverySpec.DiscoverHypothesis | apps/backend/synthai_backend/agents/literature_discovery_agent_v2.py:392-434 | the agent's hypothesis is the one given |
| DiscoveryOutput.UniqueSummariesNames | apps/backend/synthai_backend/agents/literature_discovery_agent_v2.py:1178-1189 | exactly the names of the variables and confounders |
| DiscoveryOutput.UniqueSummariesOnce | apps/backend/synthai_backend/agents/literature_discovery_agent_v2.py:1178-1189 | each name once |
| DiscoveryOutput.UniqueSummariesFirst | apps/backend/synthai_backend/agents/literature_discovery_agent_v2.py:1180-1189 | the first occurrence of a name is the one kept |
| DiscoveryOutput.CorrelationOf | apps/backend/synthai_backend/agents/literature_discovery_agent_v2.py:1193-1198 | carries both variable names; effect size defaults to 0.0 |
| DiscoveryOutput.Correlations | apps/backend/synthai_backend/agents/literature_discovery_agent_v2.py:1191-1198 | one correlation per relationship, in order |
| DiscoveryOutput.PaperDisplayLinks | apps/backend/synthai_backend/agents/literature_discovery_agent_v2.py:1241-1266 | PubMed link always; PMC link exactly with a PMC id; DOI link exactly with a DOI; full text exactly when sections exist |
| DiscoveryOutput.UnanalysedPaperDefaults | apps/backend/synthai_backend/agents/literature_discovery_agent_v2.py:1263-1265 | an unanalysed paper shows relevance `medium`, no findings and no variables |
| DiscoveryOutput.NameSetSize | apps/backend/synthai_backend/agents/literature_discovery_agent_v2.py:1272-1273 | the distinct-name count is at most the list length, and equal when names are distinct |
| DiscoveryOutput.DiscoveryResultConsistent | apps/backend/synthai_backend/agents/literature_discovery_agent_v2.py:474-484 | the synthesis input lists one summary per discovered variable and confounder; no correlations; counts and hypothesis agree with the display |
| DiscoveryOutput.DistinctSummaries | apps/backend/synthai_backend/agents/literature_discovery_agent_v2.py:1178-1189 | with distinct names no variable is dropped |
| DiscoveryAgent.LiteratureDiscoveryAgentV2.constructor | apps/backend/synthai_backend/agents/literature_discovery_agent_v2.py:39-70 | nothing found and the pipelines not loaded |
| DiscoveryAgent.LiteratureDiscoveryAgentV2.LoadBiobertNer | apps/backend/synthai_backend/agents/literature_discovery_agent_v2.py:72-100 | the NER state becomes `LoadNer` of the old one |
| DiscoveryAgent.AddVariables | apps/backend/synthai_backend/agents/literature_discovery_agent_v2.py:714-719 | the variables gain exactly the non-confounders and the confounders exactly the confounders, in order |
| DiscoveryAgent.AnalyzeEach | apps/backend/synthai_backend/agents/literature_discovery_agent_v2.py:582-725 | the paper-by-paper loop ends in `AnalyzeAll` |
| DiscoveryAgent.SummarizeUnique | apps/backend/synthai_backend/agents/literature_discovery_agent_v2.py:1178-1189 | the summary of the first variable of each name, in order |
| DiscoveryAgent.CorrelationsOf | apps/backend/synthai_backend/agents/literature_discovery_agent_v2.py:1191-1198 | one correlation per recorded relationship, in order |
| DiscoveryAgent.DisplayPapers | apps/backend/synthai_backend/agents/literature_discovery_agent_v2.py:1219-1266 | one display entry per analysed paper, in order |
| DiscoveryAgent.LiteratureDiscoveryAgentV2.AnalyzePapers | apps/backend/synthai_backend/agents/literature_discovery_agent_v2.py:582-725 | the state becomes `AnalyzeAll` |
| DiscoveryAgent.LiteratureDiscoveryAgentV2.ExtractMedicalEntities | apps/backend/synthai_backend/agents/literature_discovery_agent_v2.py:727-838 | the state becomes `WithEntities` |
| DiscoveryAgent.LiteratureDiscoveryAgentV2.StandardizeVariableNames | apps/backend/synthai_backend/agents/literature_discovery_agent_v2.py:840-963 | the state becomes `Standardized` |
| DiscoveryAgent.LiteratureDiscoveryAgentV2.FilterNonVariables | apps/backend/synthai_backend/agents/literature_discovery_agent_v2.py:965-1039 | the state becomes `Filtered`: study statistics dropped from both lists by the filter as written, the abbreviations matched as substrings |
| DiscoveryAgent.LiteratureDiscoveryAgentV2.SearchRound | apps/backend/synthai_backend/agents/literature_discovery_agent_v2.py:438-458 | the state becomes `Round` |
| DiscoveryAgent.LiteratureDiscoveryAgentV2.BuildSynthesisInput | apps/backend/synthai_backend/agents/literature_discovery_agent_v2.py:1172-1205 | the loop builds `SynthesisInputOf` the current lists |
| DiscoveryAgent.LiteratureDiscoveryAgentV2.BuildLiteratureDisplay | apps/backend/synthai_backend/agents/literature_discovery_agent_v2.py:1207-1281 | the loop builds `LiteratureDisplayOf` the current state |
| DiscoveryAgent.LiteratureDiscoveryAgentV2.SearchStep | apps/backend/synthai_backend/agents/literature_discovery_agent_v2.py:438-467 | one pass of the loop: a round, then stop with enough variables or at the last iteration, else expand the query; the rest of the run is unchanged |
| DiscoveryAgent.LiteratureDiscoveryAgentV2.SearchIterations | apps/backend/synthai_backend/agents/literature_discovery_agent_v2.py:430-472 | the state and iteration count are those of `Discover` |
| DiscoveryAgent.LiteratureDiscoveryAgentV2.DiscoverVariables | apps/backend/synthai_backend/agents/literature_discovery_agent_v2.py:392-484 | the search, one synthesis, then the two outputs, as `DiscoveryResult` |
| DiscoveryAgent.DiscoverWithFreshAgent | apps/backend/synthai_backend/agents/literature_discovery_agent_v2.py:392-484 | a fresh agent yields no correlations, its hypothesis and the literature source |

## Left out

- Every LLM call (Anthropic and OpenAI) is an oracle from prompt inputs to reply text. The prompts' wording is not modelled.
- The NCBI HTTP requests, the portal searches and the MCP tool calls are oracles, and so is their JSON-RPC plumbing.
- ElementTree parsing and `json.loads` are oracles returning structured data; `json.dumps` is too. JSON escaping is not modelled.
- BioBERT pipelines are oracles from text to scored words. Their lazy loading is a loaded/failed flag; a load failure disables both pipelines. An exception raised while running a pipeline on one paper is the oracle returning `None`. `Entities.AddText` then follows the handler: a failing chemical pipeline skips the paper, and a failing disease pipeline keeps the chemicals already added. The exception's type and message are not modelled.
- `float()` inside `safe_float` is an abstract partial parser. Ranges and scores use `real`.
- `time.time()` and `asyncio.sleep` are replaced by an explicit clock: `now` is passed in, a sleep advances the clock by exactly its duration, and nothing runs concurrently. The LLM call takes no time.
- Logging, `_log_decision` and `_log_pattern` have no effect on state and are not modelled.
- The MD5 cache key and the unit-extraction regex of the metadata fetcher are parameters. `_rule_based_parse` (regexes) and the MCP fetch and assembly paths of the selector are I/O or regex semantics.
- The NCBI `api_key` parameter is left out.
- String case-mapping, `\w` and `\d` are ASCII only; Unicode case folding is not modelled. Stripping and splitting use the full set of characters Python treats as whitespace.
- `_get_summaries_http` is an oracle, including its year split, which raises on an empty publication date.
- `_intelligent_cross_database_linking` and `_execute_intelligent_link` (literature agent v1) are LLM and database plumbing.
- The v1 synthesis prompt is an oracle; only its fence stripping and parse outcome are modelled.
- `main.py`, `config.py`, `models.py`, `agents/models.py`, `mcp_client.py`, the data loaders and `utils/nhanes_fetcher.py` are not part of this model. Nor are `agents/dataset_builder.py`, `agents/orchestrator.py`, `agents/llm_variable_matcher.py` and the test scripts.
- `relationships` is never appended to by any step of `discover_variables`, so the correlations list is always empty; `DiscoverWithFreshAgent` states this.
- The docstring of `_standardize_variable_names` cites a "hsCRP → CRP" merge. No rule of `find_canonical_name` produces it: the tokens `hscrp` and `crp` do not overlap, and `crp` is under 5 characters.
- Citations merged by `_standardize_variable_names` go through `list(set(...))`, so their order is unspecified. The model keeps first-seen order, and its properties are about membership.

## Findings

| source | as written | input that shows it | evidently intended | confidence | as-written member | corrected member |
|---|---|---|---|---|---|---|
| apps/backend/synthai_backend/agents/literature_discovery_agent_v2.py:996-1000 | keywords `hr`, `or`, `rr` and `ci` are matched as substrings of the lower-cased name | "Smoking history" contains "or" and "Cortisol" contains "or", so both are removed as study statistics | the comment calls these the abbreviations HR/OR/RR, so match them as whole words | not executed | Standardization.FilterNonVariablesAsWritten (Standardization.HistoryDroppedAsWritten, Standardization.CortisolDroppedAsWritten) | Standardization.FilterNonVariables (Standardization.CortisolKeptByWord, Standardization.ByWordNarrower) |
| apps/backend/synthai_backend/agents/literature_discovery_agent_v2.py:164-168 | after the retry loop, the raise reads `response`, which only a received reply binds | `max_retries = 3` with a network error on every attempt: `UnboundLocalError` instead of the intended failure | report that retries were exhausted | not executed | NcbiRequests.AttemptsAsWritten (NcbiRequests.NetworkFailuresLeaveResponseUnbound) | NcbiRequests.Attempts (NcbiRequests.NetworkFailuresExhaustRetries) |

The discovery pipeline (`DiscoverySpec`, `DiscoveryAgent`) keeps `_filter_non_variables` as written, so a variable such as "Smoking history" is dropped there as the program drops it; the whole-word filter and its properties stand beside it.
