# Research-Paper-QA-Summary: a Dafny model of the hallucination-risk scorer and its surroundings

Research-Paper-QA-Summary answers questions about an arXiv paper. It runs a
fixed LangGraph workflow. The workflow fetches the paper and checks a
database cache. It then either loads the cached paper or parses,
summarises and indexes the paper in a vector store. After that it
retrieves the chunks relevant to the question, asks a language model for
an answer with citations, and scores the answer's hallucination risk.

The risk score combines three checks:

- **Citation verification.** Section, page and figure/table references
  are pulled out of the citation string with three regular expressions.
  Each reference value is looked up in the retrieved chunks and in the
  paper text. The score is the share of references found in neither.
  It is forced up to 0.7 when the citations are missing or a placeholder
  but an answer exists.
- **Claim verification.** A language model splits the answer into claims
  and an NLI prompt judges each claim against the context. The score is
  one minus the supported share, or 0.5 when there are no claims.
- **Consistency.** The answer is regenerated twice. The answers longer
  than ten characters are compared pairwise, and one minus the average
  similarity is the score.

A weighted sum of the three scores is mapped onto the LOW / MEDIUM / HIGH /
CRITICAL tiers. Around that core the model covers:

- the section slicer;
- the answer/citation splitter;
- the error-state constructor;
- the arXiv-id validator;
- the workflow graph and its cache route;
- the cache-freshness decisions of the cache loader and the cache service;
- the database operations on papers, the question cache and job records;
- the configuration validators;
- vector-record construction and batching;
- the response normaliser of the paper service.

The model has one Dafny module per source concern:

- `Wrappers`, `Text`, `State`, `Ratios`: shared vocabulary. `Option` and
  `Result`, Python string operations, the dictionary-shaped workflow state,
  and shares and means.
- `CitationPatterns`, `CitationVerifier`, `ClaimVerifier`, `Consistency`,
  `RiskAggregator`: `agents/hallucination_detector.py`.
- `SectionParser`, `QAAgent`, `GraphInput`, `Workflow`, `CacheLoader`:
  the agents.
- `Jobs`, `Crud`, `CacheService`, `PaperService`: the service layer. The
  database is the class `Crud.Database`, whose three tables are maps that
  its methods update.
- `Config`: the settings.
- `VectorStore`: the vector-store manager.

Where the source works by a loop, the model is a method with a loop, proved
equal to a specification function. Properties are then proved about that
function. Examples are `VerifyReferences`, `VerifyClaimsWithNli`,
`PairwiseSimilarities`, `ExtractSections`, `BuildContext`, `BuildRecords`,
`UpsertBatches` and `GetRelevantChunks`. Where the source changes a record
or a dictionary in place, the model is a method of a class with a
`modifies` clause: `Crud.Database` and `PaperService.Response`.

Every language-model call, the similarity ratio, the embedding model, the
vector index and the database's failure behaviour are parameters of the
operations that use them:

- a function from inputs to a `Result`;
- a `fault` flag for a database call that raises;
- a `Result` holding what a lookup returned.

Clock readings are integer timestamps passed in as `now`.

## Model

| member | source | states |
|---|---|---|
| State.CreateErrorState | agents/state.py:34-43 | The result has exactly the keys `error` and `metadata`. `error` is the message. `metadata` holds `status` = `failed`, `error_stage` = the stage and every extra argument; an extra with the same name overrides either default. |
| State.Get | api/services/paper_service.py:192-193 | `dict.get`: the stored value when the key is present, the default otherwise. |
| Ratios.Share | agents/hallucination_detector.py:67-70 | `part/total` lies in [0,1] and times `total` gives `part`. It is 0 exactly when `part` is 0, and 1 exactly when every item counts. |
| Ratios.Mean | agents/qa_agent.py:32-34 | The mean is 0 for an empty list and otherwise times the length gives the sum. It stays in [0,1] when every element does. |
| CitationPatterns.KeywordEnd | agents/hallucination_detector.py:31-37 | None iff no keyword alternative of the class stands at the position, ignoring ASCII case. Otherwise it ends the first alternative, in the regex's order, that stands there. |
| CitationPatterns.DigitsEnd | agents/hallucination_detector.py:31-37 | The greedy `\d+` run: every character skipped is a digit and the one it stops at is not. |
| CitationPatterns.DottedEnd | agents/hallucination_detector.py:31 | The greedy `\d+(?:\.\d+)*` group: the end reached is a digits-and-dots span that neither a further digit nor a `.digit` could extend. |
| CitationPatterns.PageValueEnd | agents/hallucination_detector.py:34 | The greedy page group `\d+(?:\s*[–-]\s*\d+)?`: the span is one number, or two numbers joined by one dash with whitespace only beside the dash. No digit follows it, and a single number is taken only when no `\s*[–-]\s*\d` follows. |
| CitationPatterns.PageValueEndIsUnique | agents/hallucination_detector.py:34 | Any span of that shape that no digit follows, and that is not a single number followed by a dashed number, is the one `PageValueEnd` finds. |
| CitationPatterns.MatchAt | agents/hallucination_detector.py:31-38 | There is a match at a position iff some keyword alternative stands there and is followed by optional whitespace and a digit. The value group then starts at that digit, has the class's value shape, and could not be extended. |
| CitationPatterns.MatchAtAlternatives | agents/hallucination_detector.py:31-37 | Only the first alternative standing at a position can lead to a value, so taking the first one (as the regex engine does before backtracking) loses no match. |
| CitationPatterns.Scan | agents/hallucination_detector.py:32-38 | `re.finditer`: every reported match is the match at its own start. Matches come in textual order and do not overlap. |
| CitationPatterns.UncoveredPositionsDoNotMatch | agents/hallucination_detector.py:32-38 | No position outside the reported matches starts a match, so the scan misses none. |
| CitationPatterns.FindAll | agents/hallucination_detector.py:31-38 | All matches of one pattern class, in order and non-overlapping, each one the match at its start. |
| CitationPatterns.FindAllIsComplete | agents/hallucination_detector.py:31-38 | A position not covered by `FindAll` starts no match of that class. |
| CitationVerifier.AsText | agents/hallucination_detector.py:40-43 | One reference per match, carrying the matched text and the value group's text. |
| CitationVerifier.ExtractReferences | agents/hallucination_detector.py:31-40 | One reference per match of the three patterns: section matches, then page, then figure/table. |
| CitationVerifier.ReferenceValuesAreNumeric | agents/hallucination_detector.py:31-40 | Every extracted value is a dotted number or a number or two numbers joined by a dash, and it is the tail of the text it was matched in. |
| CitationVerifier.RefType | agents/hallucination_detector.py:44 | The type is the lower-cased match up to its first `.`, or the whole match when there is none. It holds no `.` and is no longer than the match. |
| CitationVerifier.SearchWholeWordFrom | agents/hallucination_detector.py:49 | True exactly when the value occurs at some position bounded by word boundaries on both sides. |
| CitationVerifier.CheckReference | agents/hallucination_detector.py:46-65 | Confidence is `high` iff the value is in some chunk (ignoring case). It is `medium` iff it is in no chunk but is a whole word of the text, and `low` otherwise. `found` iff it is not `low`. The reference string is `"{type} {value}"`. |
| CitationVerifier.UnfoundCount | agents/hallucination_detector.py:69 | The count is at most the length. It is 0 iff every reference was found, and the length iff none was. |
| CitationVerifier.ReferenceScore | agents/hallucination_detector.py:67-70 | The score is the unfound share of the references, 0 with none. |
| CitationVerifier.StatusOf | agents/hallucination_detector.py:81 | `high_risk` iff above 0.5, `medium_risk` iff in (0.2, 0.5], `low_risk` iff at most 0.2. |
| CitationVerifier.PenalizedScore | agents/hallucination_detector.py:72-74 | With no usable citation string and a non-empty answer the score is raised to at least 0.7 (and is either the old score or 0.7). Otherwise it is kept. |
| CitationVerifier.CitationPresent | agents/hallucination_detector.py:72 | Citations are present iff non-empty and, lower-cased, not one of the five placeholders. |
| CitationVerifier.CitationCheckOf | agents/hallucination_detector.py:23-88 | The status is the tier of the score, `citation_present` is `CitationPresent`, and there is one verification per extracted reference, typed by its match. |
| CitationVerifier.CheckAll | agents/hallucination_detector.py:42-65 | One verification per reference, in order. |
| CitationVerifier.VerifyReference | agents/hallucination_detector.py:43-65 | The loop body (source search, then chunk scan stopping at the first hit) computes `CheckReference`. |
| CitationVerifier.VerifyReferences | agents/hallucination_detector.py:42-65 | The append loop yields `CheckAll` of the references. |
| CitationVerifier.VerifyCitations | agents/hallucination_detector.py:23-88 | The result equals `CitationCheckOf`: section matches, then page, then figure, each verified and scored. |
| CitationVerifier.CitationScoreBounds | agents/hallucination_detector.py:67-85 | The score lies in [0,1]. `citations_verified` equals the number of verified references and of extracted references. |
| CitationVerifier.MissingCitationsPenalty | agents/hallucination_detector.py:72-81 | With empty or placeholder citations and a non-empty answer, the score is at least 0.7 and the status is `high_risk`. |
| CitationVerifier.PresentCitationsScoreIsUnfoundShare | agents/hallucination_detector.py:67-74 | Without the penalty the score is the unfound share. It is 0 iff every reference was found and 1 iff there are references and none was found. |
| ClaimVerifier.VerifyAll | agents/hallucination_detector.py:111-118 | The claim loop succeeds iff every NLI call succeeds. It then holds one record per claim, in order, with that call's verdict and explanation. |
| ClaimVerifier.VerifyAllStopsAtFirstFailure | agents/hallucination_detector.py:108-139 | A failed loop reports the error of the first failing NLI call; every earlier call succeeded. |
| ClaimVerifier.SupportedCount | agents/hallucination_detector.py:120 | The count is at most the number of verifications. It equals that number iff all are `SUPPORTED`, and is 0 iff none is. |
| ClaimVerifier.LlmScore | agents/hallucination_detector.py:120-121 | The score is in [0,1] and is 0.5 with no claims. Otherwise it is 0 iff all claims are supported and 1 iff none is. |
| ClaimVerifier.ClaimCheckOf | agents/hallucination_detector.py:90-139 | Skipped iff the answer or the chunks are empty. A verified outcome comes from a successful extraction and has one verification per claim. |
| ClaimVerifier.VerifyClaimsWithNli | agents/hallucination_detector.py:90-139 | The method's result equals `ClaimCheckOf`: skipped, failed or verified, as the inputs decide. |
| ClaimVerifier.ClaimScoreCases | agents/hallucination_detector.py:94-139 | Skipped iff the answer or the chunks are empty. Failed only when extraction or some NLI call raised. When verified, the score is in [0,1], the total equals the number of claims and the supported count is at most the total. |
| Consistency.ValidAnswers | agents/hallucination_detector.py:183-184 | Keeps the answers longer than ten characters and nothing else; the result is no longer than the input. |
| Consistency.ValidAnswersKeepsMultiplicity | agents/hallucination_detector.py:184 | The kept answers are a sub-multiset of the input, and each valid answer is kept exactly as often as it occurs (duplicates included). |
| Consistency.ValidAnswersKeepsOrder | agents/hallucination_detector.py:184 | Filtering a concatenation gives the concatenation of the filtered parts, so the kept answers stay in input order. |
| Consistency.Row | agents/hallucination_detector.py:196-199 | Row `i` holds the ratio of the lower-cased answer `i` with every later answer, in order. |
| Consistency.Pairs | agents/hallucination_detector.py:195-199 | Every pairwise similarity lies in [0,1]. |
| Consistency.PairCount | agents/hallucination_detector.py:195-199 | The first `n` rows hold `n(2m-n-1)/2` pairs; for all `m` rows that is `m(m-1)/2`. |
| Consistency.Band | agents/hallucination_detector.py:203-210 | Each status holds exactly on its band: above 0.8, (0.6,0.8], (0.4,0.6], at most 0.4. |
| Consistency.PairwiseSimilarities | agents/hallucination_detector.py:195-199 | The nested loop yields `Pairs` of all answers. |
| Consistency.ConsistencyOf | agents/hallucination_detector.py:142-226 | Skipped iff the answer or the chunks are empty. An error iff they are not and the regeneration failed. |
| Consistency.CrossCheckAnswer | agents/hallucination_detector.py:142-226 | The method's result equals `ConsistencyOf` (skipped, error, insufficient data or measured). |
| Consistency.ConsistencyShape | agents/hallucination_detector.py:149-201 | The average is in [0,1] and is 0 for every unmeasured outcome. A measured outcome compares 2 or 3 answers with `k(k-1)/2` pairs. |
| RiskAggregator.LlmComponent | agents/hallucination_detector.py:236 | 0.5 unless the claims were verified. It lies in [0,1] iff that default is used or the verified score does. |
| RiskAggregator.ConsistencyComponent | agents/hallucination_detector.py:237 | One minus the average similarity: 1 for every unmeasured outcome, 0 iff the answers were measured identical, in [0,1] iff the average is. |
| RiskAggregator.WeightedScore | agents/hallucination_detector.py:239-240 | The weighted sum of the three components; its range is stated by `ConvexScoreInUnitInterval`. |
| RiskAggregator.Aggregate | agents/hallucination_detector.py:235-262 | The components are the citation score, `LlmComponent` and `ConsistencyComponent`. The overall score is their weighted sum, the risk is its tier, and the three check results are passed on unchanged. |
| RiskAggregator.RiskOf | agents/hallucination_detector.py:242-249 | Each tier holds exactly on its band: above 0.7, (0.5,0.7], (0.3,0.5], at most 0.3. |
| RiskAggregator.RiskIsMonotone | agents/hallucination_detector.py:242-249 | A higher score never yields a lower tier. |
| RiskAggregator.ComprehensiveCheck | agents/hallucination_detector.py:229-262 | Runs the three checks and returns the weighted aggregate of their outcomes. |
| RiskAggregator.ConvexScoreInUnitInterval | agents/hallucination_detector.py:239-240 | Any non-negative weights summing to 1 keep the score in [0,1] when the components are. |
| RiskAggregator.ComponentsInUnitInterval | agents/hallucination_detector.py:235-237 | All three component scores lie in [0,1]. |
| RiskAggregator.DefaultScoreInUnitInterval | agents/hallucination_detector.py:235-240 | With the default weights the overall score lies in [0,1]. |
| RiskAggregator.MissingAnswerIsAtLeastMedium | agents/hallucination_detector.py:235-249 | With no answer the LLM component is 0.5 and consistency is 1, so the score is `0.4·citation + 0.4`, never LOW, and exactly 0.4 (MEDIUM) without references. |
| RiskAggregator.DefaultWeightsAreConvex | core/config.py:47-49 | 0.4, 0.4 and 0.2 are non-negative and sum to 1. |
| Config.IsProduction | core/config.py:102-104 | The lower-cased environment is `production`; its properties are stated by `EnvironmentPredicates`. |
| Config.IsDevelopment | core/config.py:107-109 | The lower-cased environment is `development`; its properties are stated by `EnvironmentPredicates`. |
| Config.DatabaseUrlAsync | core/config.py:80-89 | Empty stays empty. A `postgresql://` URL gets the `postgresql+asyncpg://` scheme with the rest unchanged. Anything else is unchanged. |
| Config.DatabaseUrlAsyncIdempotent | core/config.py:80-89 | Rewriting twice equals rewriting once. |
| Config.CeleryBrokerUrl | core/config.py:92-94 | The broker setting when non-empty, the Redis URL otherwise. |
| Config.CeleryResultBackendUrl | core/config.py:97-99 | The result-backend setting when non-empty, the Redis URL otherwise. |
| Config.EnvironmentPredicates | core/config.py:102-109 | Production and development exclude each other; `PRODUCTION` counts as production and the default environment is development. |
| Config.EnvironmentCaseInsensitive | core/config.py:102-109 | Two environment names equal up to letter case select the same production and development predicates. |
| Config.ValidateOpenAiKey | core/config.py:113-121 | Accepted iff non-empty, starting with `sk-` and at least 20 characters long; returned unchanged. |
| Config.ValidateDatabaseUrl | core/config.py:123-132 | Accepted iff empty or starting with one of the two postgres schemes; returned unchanged. |
| Config.ValidatePineconeKey | core/config.py:134-143 | Accepted iff empty or at least 20 characters long; returned unchanged. |
| Config.AcceptedDatabaseUrlBecomesAsync | core/config.py:80-89 | An accepted database URL rewrites to an empty or an async URL. |
| GraphInput.ValidateArxivId | agents/graph_input.py:15-23 | Accepted iff the id matches the anchored new- or old-style pattern (a single trailing newline allowed by `$`), and returned unchanged. Otherwise the error is the exact message. |
| GraphInput.MakeGraphInput | agents/graph_input.py:5-23 | Built iff the id is valid. The question is kept and the metadata defaults to an empty map. |
| GraphInput.AcceptedIdAlphabet | agents/graph_input.py:17 | An accepted id has at least 9 characters. All are digits, `.`, `/` or archive letters, except possibly one final newline. |
| GraphInput.SampleIds | agents/graph_input.py:17-18 | Concrete ids accepted and rejected, including an upper-case archive and a trailing newline. |
| Workflow.RouteOf | agents/research_agent.py:78-93 | `use_cache` iff both flags are present and true. |
| Workflow.Next | agents/research_agent.py:55-74 | Only END is its own successor, and every other edge moves strictly closer to END. |
| Workflow.Walk | agents/research_agent.py:54-74 | Every run from a node ends at END. |
| Workflow.OnlyCheckCacheBranches | agents/research_agent.py:55-74 | Only `check_cache` has a successor that depends on the route. |
| Workflow.Paths | agents/research_agent.py:54-74 | The two complete node sequences from `fetch`. |
| Workflow.NotVisitedPastFunnel | agents/research_agent.py:64-74 | A run starting past `retrieve_context` (or `comprehensive_check`) never visits it. |
| Workflow.FunnelVisitedOnce | agents/research_agent.py:54-74 | A run starting at or before `retrieve_context` (or `comprehensive_check`) visits it exactly once. |
| Workflow.EveryRunChecksOnce | agents/research_agent.py:54-74 | On both routes the run from `fetch` ends at END and passes `retrieve_context` and `comprehensive_check` exactly once. |
| Workflow.QuestionOrDefault | agents/research_agent.py:104-108 | A missing or empty question becomes the default question; any other is kept. |
| SectionParser.StartOf | agents/parser.py:55-61 | -1 iff the phrase is empty or absent. Otherwise it is the first occurrence of the phrase in the whole text. |
| SectionParser.NextStart | agents/parser.py:66-72 | The end lies strictly after the start. It is the least start of another section lying after this one, or the text length. |
| SectionParser.SectionsOf | agents/parser.py:50-76 | Exactly the five section names, each mapped to its sliced and stripped text. |
| SectionParser.TextStart | agents/parser.py:46 | The first `limit` characters, or the whole text when shorter. |
| SectionParser.SectionText | agents/parser.py:55-74 | The section text is stripped and no longer than the raw text. |
| SectionParser.ExtractSection | agents/parser.py:55-74 | One loop iteration computes `SectionText` of its name. |
| SectionParser.ExtractSections | agents/parser.py:52-76 | The loop fills the map with exactly `SectionsOf`. |
| SectionParser.ParseOf | agents/parser.py:42-79 | Sections iff a raw text is present and the identifier succeeds on its first `limit` characters. |
| SectionParser.ParseSections | agents/parser.py:42-79 | The result equals `ParseOf`: sections, or a `parse` error state for a missing text or a failing oracle. |
| SectionParser.ParsedKeys | agents/parser.py:50-76 | A successful parse has exactly the keys abstract, introduction, methodology, results and conclusion. |
| SectionParser.SectionStaysInItsSpan | agents/parser.py:60-74 | A present section is a slice starting at or after its phrase and ending no later than any later section's start. |
| SectionParser.MissingSectionIsEmpty | agents/parser.py:55-64 | A section whose phrase is empty or absent from the text is `""`. |
| QAAgent.RetrieveContext | agents/qa_agent.py:20-47 | On success the chunks pass through, the count is their number and the average is the mean score (0 with none, in [0,1] when the scores are). On failure: an error state with `Retrieve failed: …`. |
| QAAgent.ContextParts | agents/qa_agent.py:65-71 | One `[Chunk i]: content` part per chunk, in order. |
| QAAgent.BuildContext | agents/qa_agent.py:65-73 | The loop's context is the parts joined by blank lines. |
| QAAgent.ContextMentionsEveryChunk | agents/qa_agent.py:65-73 | Every chunk's part occurs in the context. |
| QAAgent.IndexLabel | agents/qa_agent.py:69-71 | A non-negative index is shown as decimal digits and a negative one with a leading minus sign. |
| QAAgent.ExtractAnswer | agents/qa_agent.py:81-84 | The answer is no longer than the response. |
| QAAgent.ExtractCitations | agents/qa_agent.py:82-85 | With a `Citations:` marker the citations are shorter than the response. |
| QAAgent.AnswerEnd | agents/qa_agent.py:81 | The lazy `(.*?)` stops at the first place where newlines then `Citations:`, or the end, follow. |
| QAAgent.LineEnd | agents/qa_agent.py:82 | `.*` stops at the first newline or the end. |
| QAAgent.AnswerWithoutMarker | agents/qa_agent.py:84 | Without `Answer:` the whole response is the answer. |
| QAAgent.AnswerStopsBeforeCitations | agents/qa_agent.py:81-84 | An extracted answer holds no `Citations:` and is stripped. |
| QAAgent.CitationsShape | agents/qa_agent.py:82-85 | Without `Citations:` the result is `Not provided`. Otherwise it is a stripped single line. |
| QAAgent.Indices | agents/qa_agent.py:87 | Each chunk's index, in order, `None` when it has none. |
| QAAgent.GenerateOf | agents/qa_agent.py:49-102 | The no-chunk fallback iff there are no chunks. Generated iff there are chunks, a question, and the model answers the question over the joined context. |
| QAAgent.GenerateAnswer | agents/qa_agent.py:49-102 | The result equals `GenerateOf`: the no-chunk fallback, the split answer, or a `generate` error state. |
| QAAgent.GenerateShape | agents/qa_agent.py:51-102 | With no chunks the fixed fallback. On success the chunks pass through, with one index and one score per chunk. Errors carry stage `generate`. |
| Jobs.NewJob | api/models/job_status.py:48-71 | A new job has the given id and status, progress 0, no result, error or start/completion time, and created = updated = now. |
| Jobs.IsTerminal | api/models/job_status.py:119-121 | Completed or failed; exclusivity is stated by `StatusPredicatesExclusive`. |
| Jobs.IsRunning | api/models/job_status.py:123-125 | Processing; exclusivity is stated by `StatusPredicatesExclusive`. |
| Jobs.IsPending | api/models/job_status.py:127-129 | Pending; exclusivity is stated by `StatusPredicatesExclusive`. |
| Jobs.StatusPredicatesExclusive | api/models/job_status.py:119-129 | At most one of terminal, running and pending holds, and a job created with the default status is pending. |
| Jobs.UpdatedJob | api/services/crud.py:247-264 | Status and `updated_at` are set. Result, error and progress change only when given. `started_at` and `completed_at` are set only by the first processing or terminal update. |
| Jobs.TimestampsAreWrittenOnce | api/services/crud.py:260-264 | Over any sequence of updates a set start or completion time never changes, and no start time appears without a processing update. |
| Crud.QuestionHash | api/services/crud.py:93-96 | The key is a stripped string no longer than the question. |
| Crud.QuestionHashIgnoresCaseAndPadding | api/services/crud.py:93-96 | Questions differing only in case or outer whitespace share a key. |
| Crud.CachedView | api/services/crud.py:120-130 | The returned dictionary is marked `cached`. |
| Crud.Touched | api/services/crud.py:116-117 | One more access, and last access now. |
| Crud.TouchKeepsCacheValid | api/services/crud.py:114-118 | Touching an entry keeps every entry filed under its own paper and question key, with access count at least 1. |
| Crud.ExpiredJobs | api/services/crud.py:295-297 | The selection is a subset of the stored jobs. |
| Crud.CleanupSparesLiveAndRecentJobs | api/services/crud.py:295-297 | A job is selected iff it is completed or failed and created before the cutoff; pending, running and recent jobs never are. |
| Crud.Database.CreateOrUpdatePaper | api/services/crud.py:36-88 | The paper is stored with every given field and `cache_updated_at` = now. `cached_at` is kept for an existing paper and set to now for a new one. Nothing else changes. |
| Crud.Database.GetCachedQA | api/services/crud.py:99-136 | A miss returns None and changes nothing. A hit returns the cached view and bumps that entry's access count and time. |
| Crud.Database.CacheQAResult | api/services/crud.py:139-194 | A new key stores a fresh entry with access count 1. A repeated key bumps the access and then fails with the attribute error. |
| Crud.Database.CreateJob | api/services/crud.py:199-219 | A new id stores `NewJob`. An existing id is refused by the primary key and changes nothing. |
| Crud.Database.UpdateJobStatus | api/services/crud.py:232-271 | An unknown id returns None and changes nothing. Otherwise it stores and returns `UpdatedJob`. |
| Crud.Database.CleanupJobs | api/services/crud.py:290-303 | Returns the number of completed or failed jobs created before the cutoff, and changes no table. |
| CacheLoader.WithCheckError | agents/cache_loader_agent.py:48-51 | The metadata gains `cache_check_error` with the message, and every other key keeps its value. |
| CacheLoader.CheckAndLoad | agents/cache_loader_agent.py:31-88 | Cached iff there is no upstream error, a date and a stored paper. Current iff cached and the stored date is not older. Each failure branch records its own message. Current implies cached. |
| CacheLoader.CacheRouteFollowsFreshness | agents/cache_loader_agent.py:43-77 | The workflow takes the cache route iff there is no upstream error, a date is given and the stored paper is found and not older. Without a date it always processes anew. |
| CacheLoader.LoadedMetadata | agents/cache_loader_agent.py:116-121 | Adds the loaded-from-cache flag, the update time and the chunk count (the stored count, or null without one), keeping every other key. |
| CacheLoader.LoadCachedPaper | agents/cache_loader_agent.py:91-142 | A missing paper or a text failure gives a `cache_loader` error state. A lookup failure gives the load-error dictionary. Otherwise the paper's fields are copied, with a missing abstract as `""`. |
| CacheLoader.LoadFailuresCarryAnError | agents/cache_loader_agent.py:108-140 | Every failure carries a non-empty error message, and the error-state ones carry stage `cache_loader`. |
| CacheService.CheckPaperCache | api/services/cache_service.py:95-133 | None iff the lookup failed or found nothing. A hit is `cached`, copies the stored fields and is current iff the stored date is not older. |
| CacheService.FreshnessIsMonotone | api/services/cache_service.py:122-129 | Current for a later date implies current for an earlier one, and a paper is current for its own date. |
| CacheService.PaperLookup | api/services/crud.py:26-33 | The lookup finds a paper iff one is stored under the id, and what it finds is that stored paper. |
| CacheService.CheckQACache | api/services/cache_service.py:34-57 | A database fault gives None with no change. Otherwise it returns a hit iff the key is cached, bumping that entry. |
| CacheService.StoreQAResult | api/services/cache_service.py:59-93 | Stored iff there is no fault and the question is new. The stored entry is exactly the new question-cache row: the paper, the key, the question, the answer, citations, hallucination score and risk, the two optional scores and the metadata as given, created and accessed now, access count 1. A repeated question reports failure but leaves the committed access bump of that entry. A fault changes nothing. |
| CacheService.StorePaperResult | api/services/cache_service.py:135-168 | Stored iff no fault. The stored paper is then exactly the given record: title, authors, published and last-modified dates, abstract, summary, chunk count and status (`completed` by default), with `cached_at` kept from an existing paper or set to now and `cache_updated_at` now. It is a current cache hit for its date. A fault changes nothing. |
| VectorStore.Truncated | utils/vector_store.py:86 | The first `min(len, 10000)` characters. |
| VectorStore.RecordOf | utils/vector_store.py:82-98 | The record's id, values, index, source and truncated text are built from the chunk, and `full_text_length` is its length. |
| VectorStore.Records | utils/vector_store.py:80-98 | One record per zipped chunk/embedding pair, in order. |
| VectorStore.RecordIdsAreDistinct | utils/vector_store.py:82 | Records at different positions get different vector ids. |
| VectorStore.Batches | utils/vector_store.py:100-105 | Every batch is non-empty with at most 100 records. |
| VectorStore.BatchesPartitionRecords | utils/vector_store.py:104-105 | The batches concatenate to the records. All but the last are full, and there are `ceil(n/100)` of them. |
| VectorStore.RunUpsertsShape | utils/vector_store.py:104-110 | Upserts go batch by batch into one namespace. They stop at the first failure and report it, and succeed only when every batch did. |
| VectorStore.StoreOutcome | utils/vector_store.py:74-118 | An embedding failure becomes the wrapped error. Success reports the number of records. |
| VectorStore.UpsertFailureIsReported | utils/vector_store.py:104-118 | With embeddings, the store succeeds iff every batch's upsert succeeds; a failed store reports the error of the first failing batch, wrapped in the failure message, after every earlier batch succeeded. |
| VectorStore.StoreCalls | utils/vector_store.py:104-109 | No upsert after an embedding failure, and every upsert sends 1–100 records to the paper's namespace. |
| VectorStore.SuccessfulStoreWritesEveryRecord | utils/vector_store.py:100-114 | After a successful store the upserted batches are exactly the records, and the count returned is their number. |
| VectorStore.BuildRecords | utils/vector_store.py:80-98 | The append loop yields `Records`. |
| VectorStore.UpsertBatches | utils/vector_store.py:100-114 | The batch loop performs `RunUpserts` over the batches, and totals the records on success. |
| VectorStore.CreateVectorStore | utils/vector_store.py:63-118 | The result and the upserts performed are `StoreOutcome` and `StoreCalls`. |
| VectorStore.ChunkOf | utils/vector_store.py:152-161 | Content, ids, score and index are copied from the match, with missing text as `""`. |
| VectorStore.StoredChunkRoundTrip | utils/vector_store.py:150-161 | A stored record comes back as its truncated chunk (the whole chunk when short) with its index, paper, source and vector id. |
| VectorStore.GetRelevantChunks | utils/vector_store.py:120-168 | One chunk per match, in order, or `[]` when the query failed. |
| PaperService.Normalized | api/services/paper_service.py:189-198 | The combined check is removed and its overall score and risk (defaults 0 and `UNKNOWN`) become the top-level fields. The average relevance, when present, becomes the answer relevancy. No other key is added, removed or changed. |
| PaperService.NormalizeIsIdempotent | api/services/paper_service.py:189-198 | Normalising twice equals normalising once. |
| PaperService.Response.Normalize | api/services/paper_service.py:189-198 | The dictionary is updated in place to `Normalized` of its old contents. |
| PaperService.ErrorFallback | api/services/paper_service.py:116-128 | Exactly the nine fallback keys with their fixed values. |
| PaperService.FallbackAgreesWithNormalizedDefaults | api/services/paper_service.py:116-128 | The fallback's score and risk are the normaliser's defaults, and normalising the fallback leaves it unchanged. |

Behaviour of the code that the model follows where a description of the
system says otherwise:

- The detector weights are never checked to sum to 1. Only the defaults
  are shown to be convex.
- With no answer, the LLM component is the 0.5 default and consistency
  contributes `1 - 0 = 1.0`. The overall score is therefore
  `0.4·citation + 0.4`: MEDIUM at least, not a fixed 0.5.
- References are listed by pattern class (sections, then pages, then
  figures and tables), not in textual order.
- A chunk hit alone gives `high` confidence.
- A skipped, failed or under-filled consistency check reports average
  similarity 0.

## Left out

- Language-model calls are parameters: claim extraction, NLI verdicts, answer generation, regeneration and section identification. So are `SequenceMatcher.ratio` (any value in [0,1]), the embedding model and the vector index. Prompts, the summariser and the fetcher are not part of this model.
- Crud.QuestionHash: MD5 is not modelled. The key is the normalised question itself, so hash collisions are not captured.
- Floating point is exact `real` arithmetic. Rounding, `float(match.score)` and Python's int/float mixing of `0` and `0.0` are not captured.
- Timestamps are integers. `isoformat()` strings, time zones and the naive/aware `datetime` comparison of `check_and_load` are not modelled.
- CacheLoader.LoadedMetadata: `cache_updated_at` is stored as the integer time, not its ISO string.
- Database failures are a `fault` flag or an `Err` lookup result. SQL sessions, commits, refreshes and connection retries are not modelled, and neither are concurrent sessions or async scheduling (the code runs sequentially).
- Crud.Database.CleanupJobs: the un-awaited `session.delete` removes nothing, so the model selects and counts without changing the table.
- Crud.Database.CacheQAResult: the update path assigns onto the dictionary returned by `get_cached_qa` and raises. The model returns that error after the access bump has been committed; `CacheService.StoreQAResult` therefore reports failure for a repeated question.
- CacheLoader.CheckAndLoad: the fetcher never sets `last_modified_date`, so the real workflow always takes the missing-date branch. `CacheLoader.CacheRouteFollowsFreshness` states the consequence (always `process_new`) rather than modelling the fetcher.
- CacheService.StoreQAResult: the question cache's foreign key to the papers table is not modelled; storing an answer for a paper that is not stored is a database error, and the model covers it only through the `fault` flag.
- CitationVerifier.CitationCheckOf: `verify_citations` reads `state["raw_text"]` outside any `try`, and a failed fetch leaves no `raw_text` in the state while the fixed edges still lead to `check_hallucination`; the resulting `KeyError`, which aborts the whole run, is not modelled (the paper text is a plain `string` parameter). The same holds for the unguarded `state["question"]` reads of `retrieve_context` and `cross_check_answer`.
- State.Get: `.get` on a value that is not a dictionary returns the default here, where Python would raise.
- Workflow.RouteOf: the flags are `Option<bool>`; other truthy or falsy values are not modelled.
- `Text.Lower`, `\d` and `\w` are ASCII-only; `\s` and `str.strip` use Python's whitespace set. Unicode case folding, Unicode digits and Unicode word characters are not modelled.
- The `metadata` dictionaries merged into the detector and QA results (`**state.get("metadata", {})` plus per-check scores) are not modelled; only the check results themselves are.
- `delete_paper_vectors`, `get_index_stats`, `get_jobs_by_arxiv_id`, `chunk_content`, routers, Celery tasks, tracing and logging are outside the modelled core.
