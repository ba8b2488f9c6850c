# parts2sales-A2A-LLM-HUB prompt lifecycle, modelled in Dafny

This project models the core of the parts2sales A2A LLM hub, a set of Python scripts and agents
that take a YAML prompt file through its lifecycle. An LLM scores the prompt against weighted
criteria. An improvement agent rewrites it under the next version. A controller agent decides
whether to continue, retry or abort. A prompt that passes is promoted from one stage to the next
(raw, template, config, active).

The model covers:

- version arithmetic: semantic versions (`utils/semantic_versioning_utils.py`), versioned file
  names (`utils/prompt_versioning.py`), stage and version suffixes with promotion
  (`utils/promt_versioning.py`), and the `version:` line of a YAML prompt;
- scoring: the raw scoring matrix and its weighted score, the LLM prompt scorer, both prompt
  quality agents, and the controller's decision rule;
- the evaluate → improve → controller loops: `cli/run_prompt_lifecycle.py`, the three
  `cli/run_template_batch*.py` runners and `workflows/template_prompt_loop.py`;
- the agent orchestrator's sequence of stages with its retry bound, and `utils/retry_utils.py`;
- tolerant extraction: the JSON-array extraction of `utils/json_safety.py`, the list search of
  `utils/list_extractor.py`, and the company match agent's parsing and scoring;
- logs and metadata: the JSONL event logger, the two event-file loggers, the two manifest
  loaders, and the pydantic schemas of agent and model events.

Modelling conventions:

- The file system is a map from paths to file contents (`Paths.Store`). A write is a map
  update, a copy is a lookup followed by an update, and a missing file is an absent key.
- Python exceptions become `Result` values whose error names the exception. Optional values
  become `Option`.
- The LLM, the agents and the YAML/JSON decoders are oracles: functions passed in as
  parameters. Clocks, uuids and the repository root are parameters too. The properties proved
  hold for every oracle of the given type; where an agent is a total function, the model
  assumes it returns (see "Left out").
- Loops that update variables are methods with `while`/`for` loops and invariants. Each is
  proved against a function that defines the same run as a trace of steps, and the lemmas
  about the run are stated on that function.
- Objects whose methods update their fields (the retry status, the company
  match agent, the JSONL logger, the manifests) are classes.

## Model

| member | source | states |
|---|---|---|
| SemanticVersioning.ParseVersion | utils/semantic_versioning_utils.py:5 | `Version(s)` succeeds exactly on three non-empty dot-separated digit runs |
| SemanticVersioning.TripleParses | utils/semantic_versioning_utils.py:5 | three digit runs joined by dots parse as the version of their decimal values |
| SemanticVersioning.ParseFormat | utils/semantic_versioning_utils.py:6 | the `major.minor.micro` text of a version parses back to that version |
| SemanticVersioning.LessTransitive | utils/semantic_versioning_utils.py:4-14 | version precedence is transitive |
| SemanticVersioning.BumpRules | utils/semantic_versioning_utils.py:4-14 | patch adds one to the third number; minor adds one to the second and zeroes the patch; major adds one to the first and zeroes the rest; each result is greater |
| SemanticVersioning.BumpPatchText | utils/semantic_versioning_utils.py:4-6 | fails exactly on text that is no version; otherwise the result parses as the patch bump |
| SemanticVersioning.BumpMinorText | utils/semantic_versioning_utils.py:8-10 | fails exactly on text that is no version; otherwise the result parses as the minor bump |
| SemanticVersioning.BumpMajorText | utils/semantic_versioning_utils.py:12-14 | fails exactly on text that is no version; otherwise the result parses as the major bump |
| SemanticVersioning.Bump | utils/semantic_versioning_utils.py:16-24 | an unknown mode raises ValueError with the mode in the message; a known mode succeeds exactly on a valid version and returns a greater one: the patch, minor or major bump that the mode names |
| StageVersioning.Rank | utils/promt_versioning.py:24 | a known stage's position on the ladder `raw, templ, config, active` |
| StageVersioning.RankInjective | utils/promt_versioning.py:24 | different stages have different positions on the ladder |
| StageVersioning.ParseTailOf | utils/promt_versioning.py:44 | every name ending in `_v<digits>.<digits>.<digits>.yaml` is recognised with its own head and digit runs |
| StageVersioning.Subject | utils/promt_versioning.py:33 | `$` matches at the end of the name or just before a final newline: the matched text is the name, less at most one final character |
| StageVersioning.ExtractVersion | utils/promt_versioning.py:39-48 | fails with ValueError naming the file exactly when the name lacks the version tail; otherwise returns the tail's `X.Y.Z`, which parses as a version |
| StageVersioning.StageOfHeadOf | utils/promt_versioning.py:32 | a head ending in `_<stage>` yields that stage, since the four alternatives end in different letters |
| StageVersioning.ExtractStage | utils/promt_versioning.py:27-36 | succeeds exactly when the version tail is preceded by `_raw`, `_templ`, `_config` or `_active`, and returns that stage; otherwise ValueError naming the file |
| StageVersioning.ExtractFromStagedName | utils/promt_versioning.py:27-48 | both extractors recover the stage and the `a.b.c` of `p_<stage>_v<a>.<b>.<c>.yaml` |
| StageVersioning.BumpVersion | utils/promt_versioning.py:51-69 | an invalid version raises `Invalid version string`; an unknown mode raises `Unknown bump mode`; otherwise the canonical text of the patch, minor or major bump |
| StageVersioning.NextStage | utils/promt_versioning.py:72-85 | an unknown stage raises ValueError; `active` stays; any other stage moves strictly up; with the skip the result is never `config`; without it the result is the next rung |
| StageVersioning.Ladders | utils/promt_versioning.py:72-85 | with the skip: raw to templ, templ and config to active; without it: raw to templ to config to active |
| StageVersioning.ResolveTargetDir | utils/promt_versioning.py:88-109 | `parents[3]` is taken first (IndexError when too shallow); an unknown stage raises ValueError; a known stage gives a directory under `parents[3]/prompts` |
| StageVersioning.TargetDirsDistinct | utils/promt_versioning.py:96-107 | different stages are filed in different directories |
| StageVersioning.FeatureDirName | utils/promt_versioning.py:96-103 | raw and templ files go to a folder named `feature_setup_<stage>` |
| StageVersioning.AreaOf | utils/promt_versioning.py:96-107 | the folder under `prompts` is `00-templates`, `01-examples` or `02-production` by stage |
| StageVersioning.PlanPromotion | utils/promt_versioning.py:122-130 | fails exactly as `extract_stage` does; otherwise holds the file's stage and version, the next stage, and the new version from a major bump into `active` and a patch bump otherwise |
| StageVersioning.PromotionVersions | utils/promt_versioning.py:127-130 | the new version is the major bump exactly when entering `active` from another stage, and the patch bump otherwise |
| StageVersioning.PromotionIncreases | utils/promt_versioning.py:127-130 | every promotion yields a strictly greater version |
| StageVersioning.SubWildOnce | utils/promt_versioning.py:132 | `re.sub` with a single match of the pattern replaces exactly that match |
| StageVersioning.AsWrittenRewritesBase | utils/promt_versioning.py:132 | when the base of a name itself matches the tag pattern, the code rewrites the base as well |
| StageVersioning.SampleRewrite | utils/promt_versioning.py:132 | promoting `_raw_v1x2x3_raw_v1.2.3.yaml` to templ produces `_templ_v1.2.4_templ_v1.2.4.yaml` |
| StageVersioning.ExtractFromBuiltName | utils/promt_versioning.py:27-48 | a name built from a base, a stage and a canonical version is read back as that stage and version |
| StageVersioning.BaseOfBuiltName | utils/promt_versioning.py:132 | the base of such a built name is the base it was built from |
| StageVersioning.PromotedNameRoundTrip | utils/promt_versioning.py:122-132 | the promoted name keeps the old name's base and reads back as the new stage and the new version |
| StageVersioning.AsWrittenAgrees | utils/promt_versioning.py:132 | when the tag pattern matches nowhere in the base, the code's rewrite equals the intended one |
| StageVersioning.Promote | utils/promt_versioning.py:112-138 | name errors and the `parents[3]` IndexError pass through, and a missing file is FileNotFound; otherwise the promotion succeeds, and the file moves with its text unchanged into the next stage's directory under the name that `re.sub` gives, every wildcard match of the old tags rewritten, and no other file changes |
| StageVersioning.PromoteMovesUp | utils/promt_versioning.py:112-138 | when no match of the old tags begins inside the base, `promote_prompt` does what was intended: the moved file keeps its text, reads back as the next stage and the new version, and is never lower on the ladder |
| StageVersioning.PromoteIntended | utils/promt_versioning.py:112-138 | the corrected promotion of the Findings row: the same errors, success in every other case, and the file moves with its text to the name whose trailing tags alone are rewritten |
| StageVersioning.PromoteIntendedMovesUp | utils/promt_versioning.py:112-138 | a corrected promotion keeps the text, reads back as the next stage and the new version, and is never lower on the ladder |
| PromptVersioning.TagAtOf | utils/prompt_versioning.py:18 | a `_v<a>.<b>.<c>` tag followed by a non-digit or nothing is matched with its own digit runs |
| PromptVersioning.RemoveTagsAbsent | utils/prompt_versioning.py:44 | a name without any version tag is left unchanged by the tag removal |
| PromptVersioning.RemoveTagsAppend | utils/prompt_versioning.py:44 | the scan of `re.sub` never carries a tag across a boundary before `_`: both parts are cleaned separately |
| PromptVersioning.FirstTag | utils/prompt_versioning.py:18 | the index of the first tag at or after a position, with no tag before it, or -1 when there is none |
| PromptVersioning.FirstTagAt | utils/prompt_versioning.py:18 | a tag with no tag before it is the one `re.search` finds |
| PromptVersioning.NoVersionParses | utils/prompt_versioning.py:21 | the default `0.0.0` is the version 0.0.0 |
| PromptVersioning.ExtractVersion | utils/prompt_versioning.py:17-21 | the version of the first tag anywhere in the name, or `0.0.0` when there is none; the result always parses |
| PromptVersioning.DropYaml | utils/prompt_versioning.py:45 | removes a final `.yaml`, or `.yaml` before a final newline, and leaves any other name alone |
| PromptVersioning.CleanPlainName | utils/prompt_versioning.py:42-46 | a name with no tag and no `.yaml` ending is its own base |
| PromptVersioning.CleanVersionedName | utils/prompt_versioning.py:42-46 | cleaning `{base}_v{version}.yaml` gives the cleaned base back |
| PromptVersioning.ExtractVersionedName | utils/prompt_versioning.py:17-21 | the version of a versioned name whose base has no tag is the version it was built with |
| PromptVersioning.BumpVersion | utils/prompt_versioning.py:24-39 | the new file is `{clean_base}_v{new}.yaml`; it goes in `parents[1]/target_layer` when a layer is given (IndexError when there is no such parent) and in the file's own directory otherwise |
| PromptVersioning.NextPatchNumbers | utils/prompt_versioning.py:27-30 | only the patch number moves, the new version is greater, and a name without a tag becomes 0.0.1 |
| PromptVersioning.BumpVersionRoundTrip | utils/prompt_versioning.py:24-46 | the new name reads back as the new version, and cleaning it gives the old name's cleaned base with any version tag that cleaning exposes removed |
| PromptVersioning.VersionedNameShape | utils/prompt_versioning.py:31 | the `$`-anchored extractor of utils/promt_versioning.py reads the version back from any versioned name |
| ControllerAgent.Present | agents/controller_agent.py:75 | counts the feedback words, repeats included, that occur in the prompt as substrings: at most the word count, all of them exactly when every word occurs, none exactly when no word occurs |
| ControllerAgent.Ratio | agents/controller_agent.py:79 | a count out of a positive total is in [0, 1], is 1 for all of it and 0 for none |
| ControllerAgent.AlignmentCheck | agents/controller_agent.py:67-81 | missing or empty feedback gives 1.0 with the default rationale; whitespace-only feedback gives 1.0 with the other rationale; otherwise the share of words present; always in [0, 1] |
| ControllerAgent.Action | agents/controller_agent.py:42-47 | `pass` exactly when the score is at least 0.85, `retry` exactly for [0.4, 0.85), `abort` exactly below 0.4 |
| ControllerAgent.FullAlignmentPasses | agents/controller_agent.py:71-79 | when there are no feedback words, or all of them occur, the alignment is 1.0 and the action is `pass` |
| ControllerAgent.NoAlignmentAborts | agents/controller_agent.py:75-79 | when no feedback word occurs, the action is `abort` |
| ControllerAgent.Run | agents/controller_agent.py:24-65 | the event is a `controller_decision` of this agent, with the prompt version, the meta, the step id from meta (default `""`) and a ControllerResult payload carrying the action and score of the alignment check; a step id of the wrong type fails validation |
| ControllerAgent.RunDefaultStep | agents/controller_agent.py:36-60 | without meta the event is built and its step id is `""` |
| LlmPromptScorer.Evaluations | agents/llm_prompt_scorer.py:50-58 | one result per matrix criterion, in matrix order |
| LlmPromptScorer.EvaluateCriteria | agents/llm_prompt_scorer.py:42-59 | the loop yields, for each criterion in order, whether its non-empty snippet occurs in the content ignoring case; a missing or empty snippet passes |
| LlmPromptScorer.PassedWeightBounds | agents/llm_prompt_scorer.py:65-68 | with non-negative weights the passed weight lies between 0 and the total, and equals the total when every criterion passes |
| LlmPromptScorer.WeightedScore | agents/llm_prompt_scorer.py:61-69 | 0.0 when the total weight is not positive; in [0, 1] for non-negative weights; 1.0 when every criterion passes and the total is positive |
| LlmPromptScorer.RatioBounds | agents/llm_prompt_scorer.py:69 | a part of a positive whole, divided by the whole, lies in [0, 1] and is 1 for the whole |
| LlmPromptScorer.Feedback | agents/llm_prompt_scorer.py:97-101 | the feedback strings of exactly the failed criteria, one per failure; a failed criterion without feedback raises KeyError |
| LlmPromptScorer.FeedbackOne | agents/llm_prompt_scorer.py:97-101 | one criterion gives nothing when met, its feedback when failed, and KeyError when failed without feedback |
| LlmPromptScorer.FeedbackConcat | agents/llm_prompt_scorer.py:97-101 | the feedback follows the matrix order: a matrix split in two gives the first part's feedback followed by the second's, and a KeyError in either part is the error |
| LlmPromptScorer.NoFailuresNoFeedback | agents/llm_prompt_scorer.py:97-101 | when every criterion passes there is no failure to report |
| LlmPromptScorer.Score | agents/llm_prompt_scorer.py:88-101 | the results, the weighted score, `passed` exactly when the score is at least 0.9, and the feedback list; fails exactly when the feedback lookup does |
| LlmPromptScorer.FullMarks | agents/llm_prompt_scorer.py:61-101 | a prompt meeting every criterion of a matrix with positive total weight scores 1.0, passes and gets no feedback |
| LlmPromptScorer.RunAsWrittenAlwaysFails | agents/llm_prompt_scorer.py:71-149 | as written, no run logs anything: without a workflow id, `cet_now().isoformat(...)` on a `str` raises AttributeError before the logger exists; with one, no event can be built because `event_id` is missing, so the validation error is raised |
| LlmPromptScorer.RunWithoutEventId | agents/llm_prompt_scorer.py:111-149 | built without an `event_id`, neither the score event nor the error event validates, so nothing is logged and the missing field is the error |
| LlmPromptScorer.DefaultWorkflowIdShape | agents/llm_prompt_scorer.py:78-79 | the default workflow id as intended keeps the time stamp's characters except that every `:` becomes `-`, holds no `:` in the stamp part, and ends with `_workflow_` and six hex digits of the uuid |
| LlmPromptScorer.RunLogsScore | agents/llm_prompt_scorer.py:82-126 | with an event id, a readable prompt is logged once and returned as a success event whose payload carries the score, and `passed` holds exactly when the score is at least 0.9 |
| LlmPromptScorer.RunLogsError | agents/llm_prompt_scorer.py:128-149 | with an event id, an unreadable prompt is logged as one error event with status `error`, and the exception is raised again |
| RawScoringMatrix.ScoringMatrixShape | config/scoring/raw_scoring_matrix.py:17-60 | the default matrix's criteria are exactly the seven listed names, and every weight is positive |
| RawScoringMatrix.ComputeWeightedScore | config/scoring/raw_scoring_matrix.py:63-87 | the loop's result is Σ score·weight / Σ weight over the supplied criteria the matrix knows, or 0.0 when that total is 0 |
| RawScoringMatrix.AppendOne | config/scoring/raw_scoring_matrix.py:79-83 | one more supplied pair adds its product to the sum and its weight to the total, when the matrix knows it |
| RawScoringMatrix.KnownSums | config/scoring/raw_scoring_matrix.py:79-84 | the known pairs alone give the same sum and the same total |
| RawScoringMatrix.UnknownCriteriaIgnored | config/scoring/raw_scoring_matrix.py:79-84 | dropping the criteria the matrix does not know leaves the result unchanged |
| RawScoringMatrix.NoKnownCriteriaScoresZero | config/scoring/raw_scoring_matrix.py:85-86 | when no supplied criterion is in the matrix the result is 0.0 |
| RawScoringMatrix.NoneKnown | config/scoring/raw_scoring_matrix.py:80 | when no supplied criterion is in the matrix none of them is kept |
| RawScoringMatrix.MissingCriteriaIrrelevant | config/scoring/raw_scoring_matrix.py:79-84 | a matrix criterion the scores do not mention has no effect on the sum, the total or the result |
| RawScoringMatrix.SumBounds | config/scoring/raw_scoring_matrix.py:73-83 | with scores in [0, 1] and positive weights, 0 <= Σ score·weight <= Σ weight |
| RawScoringMatrix.ScaleBound | config/scoring/raw_scoring_matrix.py:82 | a score in [0, 1] scales a positive weight to at most that weight |
| RawScoringMatrix.AverageInUnitRange | config/scoring/raw_scoring_matrix.py:73-87 | with scores in [0, 1] and positive weights the result lies in [0, 1] |
| RawScoringMatrix.UniformEntry | config/scoring/raw_scoring_matrix.py:80-83 | a known criterion scored `s` adds `s` times its weight; an unknown one adds nothing |
| RawScoringMatrix.UniformSum | config/scoring/raw_scoring_matrix.py:76-83 | when every supplied known criterion has score `s`, the weighted sum is `s` times the total weight |
| RawScoringMatrix.UniformScores | config/scoring/raw_scoring_matrix.py:76-87 | when every supplied known criterion has score `s` and the total is not 0, the result is `s` |
| PromptQualityAgent.ScoringModule | agents/prompt_quality_agent.py:18-26 | every registry module lies in the `config.scoring` package |
| PromptQualityAgent.RSplitDot | agents/prompt_quality_agent.py:37 | `rsplit(".", 1)` unpacks exactly when there is a dot; the two parts joined by the dot give the text back, and the attribute holds no dot |
| PromptQualityAgent.SplitMatrixPath | agents/prompt_quality_agent.py:37 | splitting a registry path at its last dot gives back its module and its attribute |
| PromptQualityAgent.RegistrySplits | agents/prompt_quality_agent.py:35-37 | every registry entry splits into a module of `config.scoring` and an attribute name |
| PromptQualityAgent.SplitKeepsPackage | agents/prompt_quality_agent.py:37 | whatever the attribute, the last dot of a registry path comes after the package prefix |
| PromptQualityAgent.RawEntryNamesOtherAttribute | agents/prompt_quality_agent.py:19-39 | the `raw` entry asks for `RAW_SCORING_MATRIX`, while config/scoring/raw_scoring_matrix.py defines `SCORING_MATRIX` |
| PromptQualityAgent.NewAgent | agents/prompt_quality_agent.py:30-39 | an unknown matrix name raises ValueError; a known one is split at its last dot and the agent holds whatever the import of that module and attribute yields, or fails with it |
| PromptQualityAgent.UnknownNameNeverLoads | agents/prompt_quality_agent.py:35-36 | an unknown name is refused before any import: the loader makes no difference |
| PromptQualityAgent.ScorePrompt | agents/prompt_quality_agent.py:71-79 | every prompt scores 1.0 with no issues |
| PromptQualityAgent.Decide | agents/prompt_quality_agent.py:50-66 | passed exactly when the score is at least 0.9; feedback is `""` exactly when passed, else `Issues: ` and the issues; status `pass` or `fail` mirrors the decision |
| PromptQualityAgent.RunAsWrittenAlwaysFails | agents/prompt_quality_agent.py:60-69 | as written, `run` never returns an event: the record lacks the required `event_type`, so validation fails |
| PromptQualityAgent.RunReportsPass | agents/prompt_quality_agent.py:41-69 | with the record's own field names, `run` always yields a `quality_evaluation` event whose payload reports score 1.0, a pass, no feedback and status `pass` |
| PromptQualityAgentVs1.DimensionEntries | agents/prompt_quality_agent_vs1.py:23 | one (dimension, weight) pair per entry of `dimensions`, or none when an entry lacks either key |
| PromptQualityAgentVs1.MatrixOf | agents/prompt_quality_agent_vs1.py:22-24 | every listed dimension is a key and every key is listed; a later entry for the same dimension wins |
| PromptQualityAgentVs1.LoadScoringMatrix | agents/prompt_quality_agent_vs1.py:18-27 | a file that cannot be read gives the empty map; a non-empty map comes only from a document whose `dimensions` is a list |
| PromptQualityAgentVs1.UnknownDimensionWeighsOne | agents/prompt_quality_agent_vs1.py:72-76 | an item naming a dimension the matrix lacks weighs 1.0 |
| PromptQualityAgentVs1.MissingScoreContributesZero | agents/prompt_quality_agent_vs1.py:73-76 | an item without a score adds 0.0 to the weighted sum and its full weight to the total |
| PromptQualityAgentVs1.TotalsStep | agents/prompt_quality_agent_vs1.py:71-76 | one more item adds its terms to the running sums |
| PromptQualityAgentVs1.TotalsFailurePersists | agents/prompt_quality_agent_vs1.py:71-87 | once an item raises, the whole loop raises that exception |
| PromptQualityAgentVs1.Evaluate | agents/prompt_quality_agent_vs1.py:50-93 | the summary's `prompt_score_weighted` is the returned score; on any exception the score is 0.0, the details are empty and the error is recorded; otherwise the details are the decoded reply |
| PromptQualityAgentVs1.EvaluateOf | agents/prompt_quality_agent_vs1.py:67-93 | the score is the quotient of the loop's sums (0.0 for a zero total), or 0.0 with the loop's exception |
| PromptQualityAgentVs1.SumItems | agents/prompt_quality_agent_vs1.py:69-76 | the loop's sums over the items, or the first exception an item raises |
| PromptQualityAgentVs1.Run | agents/prompt_quality_agent_vs1.py:50-93 | the returned score and summary are those the reply determines, as `Evaluate` states them |
| PromptQualityAgentVs1.EmptyFeedbackScoresZero | agents/prompt_quality_agent_vs1.py:78 | an empty reply list scores 0.0 without error |
| PromptQualityAgentVs1.WithDefaults | agents/prompt_quality_agent_vs1.py:74 | each dimension of the reply weighs its matrix weight, or 1.0 when the matrix lacks it |
| PromptQualityAgentVs1.ItemTermsOfPair | agents/prompt_quality_agent_vs1.py:72-76 | a well-formed item adds what config/scoring/raw_scoring_matrix.py's aggregation adds for its pair |
| PromptQualityAgentVs1.TotalsAgree | agents/prompt_quality_agent_vs1.py:69-76 | item by item agreement gives the same sums as config/scoring/raw_scoring_matrix.py's aggregation |
| PromptQualityAgentVs1.AgreesWithRawAverage | agents/prompt_quality_agent_vs1.py:69-78 | the weighted score equals config/scoring/raw_scoring_matrix.py's weighted average, with unknown dimensions at weight 1.0 |
| PromptQualityAgentVs1.ScoreInUnitRange | agents/prompt_quality_agent_vs1.py:69-78 | with scores in [0, 1] and positive weights the weighted score lies in [0, 1] |
| PromptLifecycle.DropMarker | cli/run_prompt_lifecycle.py:69-70 | a name without the marker is left as it is |
| PromptLifecycle.SuffixHasOneUnderscore | cli/run_prompt_lifecycle.py:73 | a version suffix starts at the last underscore before the point where `$` matches |
| PromptLifecycle.SuffixStart | cli/run_prompt_lifecycle.py:73 | the start of the `_v<digits>(.<digits>)*` suffix, or -1 exactly when the name has none |
| PromptLifecycle.DropVersionSuffix | cli/run_prompt_lifecycle.py:73 | a name without a version suffix is unchanged; otherwise the suffix is cut out and a final line feed is kept |
| PromptLifecycle.CleanBaseName | cli/run_prompt_lifecycle.py:63-74 | the loop removes each of `_raw`, `_templ`, `_config`, `_active` in turn, then the version suffix |
| PromptLifecycle.NoMarkersKept | cli/run_prompt_lifecycle.py:68-70 | a name holding none of the markers passes the marker loop unchanged |
| PromptLifecycle.CleanNameUnchanged | cli/run_prompt_lifecycle.py:63-74 | a name with no stage marker and no version suffix is returned unchanged |
| PromptLifecycle.FormatIsDotted | cli/run_prompt_lifecycle.py:73 | a version written `N.N.N` is a suffix the pattern removes |
| PromptLifecycle.DropsVersionSuffix | cli/run_prompt_lifecycle.py:73 | `_v` followed by dot-separated digit runs at the end is cut off, whatever comes before it |
| PromptLifecycle.DropsSemanticVersion | cli/run_prompt_lifecycle.py:73 | a name ending in `_v` and a semantic version loses just that version |
| PromptLifecycle.OnlyLastSuffixDropped | cli/run_prompt_lifecycle.py:73 | only the final suffix goes: `a_v1_v2` becomes `a_v1` |
| PromptLifecycle.ArchiveDir | cli/run_prompt_lifecycle.py:136-141 | after a promotion the file is archived exactly for the `raw` and `template` layers |
| PromptLifecycle.PromotionNamesDiffer | cli/run_prompt_lifecycle.py:119-166 | the config and template files never bear the name of an improved version |
| PromptLifecycle.EvaluateAndImprovePrompt | cli/run_prompt_lifecycle.py:77-190 | a missing file raises at once; otherwise the loop runs from the file's declared version and writes only improvements; a pass copies the file to `{base}_config_v0.3.0.yaml` and writes a 1.0.0 template, or raises SameFileError when the file is that copy; the file is archived exactly after a promotion |
| PromptLifecycle.PromoteKeeps | cli/run_prompt_lifecycle.py:114-133 | a promotion writes two files and leaves every other file alone |
| PromptLifecycle.PromotionKeepsImprovements | cli/run_prompt_lifecycle.py:114-167 | after a promotion every improved version written along the way is still on disk as written |
| PromptLifecycle.EveryImprovementIsNewer | cli/run_prompt_lifecycle.py:114-190 | every iteration but the last scored below the threshold, and the next one reads the patch-bumped version |
| PatchLoop.VersionedNameInjective | cli/run_prompt_lifecycle.py:166 | different versions give different `{base}_v{version}.yaml` names |
| PatchLoop.ExtendTrace | cli/run_prompt_lifecycle.py:94-190 | appending a step made by the agents that continues the last one keeps a trace linked |
| PatchLoop.StepIncreases | cli/run_prompt_lifecycle.py:162-190 | from one iteration to the next the version parses and strictly grows |
| PatchLoop.VersionsIncrease | cli/run_prompt_lifecycle.py:162-190 | along a run the versions strictly increase, from any iteration to any later one |
| PatchLoop.Extend | cli/run_prompt_lifecycle.py:166-167 | one more iteration adds its improvement, if any, to the files written |
| PatchLoop.WriteOver | cli/run_prompt_lifecycle.py:167 | writing one more file over the store and the earlier writes is one more write |
| PatchLoop.NothingWritten | cli/run_prompt_lifecycle.py:94 | before the first iteration nothing has been written |
| PatchLoop.LaterImprovementIsNewer | cli/run_prompt_lifecycle.py:162-190 | an earlier improvement carries a different version from a later one |
| PatchLoop.WritesAreDistinct | cli/run_prompt_lifecycle.py:162-167 | because the versions grow, every improvement writes a file of its own |
| PatchLoop.WritesHold | cli/run_prompt_lifecycle.py:167 | when no two improvements share a file, each written file holds its improvement's text, and nothing else is written |
| PatchLoop.TraceFilesHold | cli/run_prompt_lifecycle.py:94-190 | after a run every file an improvement wrote still holds the improved prompt, and every other file is as it was |
| PatchLoop.LoopWritesImprovements | cli/run_prompt_lifecycle.py:94-190 | the loop writes only the improvements, and a passing run has at least one iteration |
| PatchLoop.Finish | cli/run_prompt_lifecycle.py:114-146 | a passing score, or the last iteration, ends the run with no improvement and no controller call |
| PatchLoop.Iteration | cli/run_prompt_lifecycle.py:98-190 | one iteration either ends the run (pass, last iteration, invalid version, abort) or hands the patch-bumped file and version to the next one |
| PatchLoop.ImproveLoop | cli/run_prompt_lifecycle.py:94-190 | at most MAX_ITERATIONS iterations, each made by the agents and reading what the last one wrote; it ends on a pass, the last iteration, an abort or an invalid version; `retry` and other actions go on alike |
| TemplateBatchLatest.BaseNameOfFirstTemplate | cli/run_template_batch_latest.py:60 | a template `<name>_v1.yaml` runs under the base name `<name>` |
| TemplateBatchLatest.BaseNameOfVersionedTemplate | cli/run_template_batch_latest.py:60 | the `_v1` removal also strikes inside a longer version: `<name>_v1.0.0.yaml` runs under `<name>.0.0` |
| TemplateBatchLatest.TemplateNotExample | cli/run_template_batch_latest.py:33-34 | no path in the templates folder is a path in the examples folder |
| TemplateBatchLatest.ExampleNameDiffers | cli/run_template_batch_latest.py:88-114 | the example copy's file name never equals an improved version's file name |
| TemplateBatchLatest.EvaluateAndImprovePrompt | cli/run_template_batch_latest.py:52-138 | a missing template raises and changes nothing; otherwise the run follows the improvement loop from the template's declared version, with improved versions written to the templates folder; on a pass the last version's text is copied to `<base>_example_v<version>.yaml` (or the copy onto itself raises); every other ending leaves exactly the loop's writes |
| TemplateBatchLatest.CopySparesImprovement | cli/run_template_batch_latest.py:86-115 | copying to the example path leaves an improved version's file as written |
| TemplateBatchLatest.CopyKeepsImprovements | cli/run_template_batch_latest.py:86-115 | after the example copy, every improved version written by the loop is still on disk with its text |
| TemplateBatchV1.CategoriesApart | cli/run_template_batch_v1.py:50-54 | logs of different categories never share a file, each category having its own folder |
| TemplateBatchV1.Settings | cli/run_template_batch_v1.py:34-91 | the loop's settings (threshold 0.90, three iterations, `<base>_v<n>.yaml` in the templates folder, the example copy named after the declared version) keep improved versions apart from each other and from the copy |
| TemplateBatchV1.RunTemplateWorkflow | cli/run_template_batch_v1.py:58-121 | a missing template fails before the loop and logs nothing; otherwise the result is the template loop run from version 1 and the logs are those of its rounds |
| TemplateBatchV1.PassingCopyKeepsFirstVersion | cli/run_template_batch_v1.py:67-83 | a passing run copies the last evaluated text, which scored at least 0.90, to the example file named after the version declared in the FIRST file |
| TemplateBatchV1.AtMostThreeEvaluations | cli/run_template_batch_v1.py:69-117 | unless the controller grants a retry, one to three evaluations happen and the run ends by a copy, at the last iteration, or on a refused retry |
| TemplateBatch.Settings | cli/run_template_batch.py:32-75 | the loop's settings (threshold 0.85, five iterations, `prompts/templates/<base>_v<n>.yaml`, copy to `<base>_template1.yaml`) keep improved versions apart from each other and from the copy |
| TemplateBatch.FinalNotImproved | cli/run_template_batch.py:63-75 | the final template `<base>_template1.yaml` is never one of the improved versions `<base>_v<n>.yaml` |
| TemplateBatch.RunTemplateWorkflow | cli/run_template_batch.py:45-101 | a missing template fails at the first read and logs nothing; otherwise the result is the template loop run from version 1 and the logs are those of its rounds |
| TemplateBatch.RetryOverwritesLogs | cli/run_template_batch.py:38-95 | two consecutive rounds log to the same file of a category exactly when the improvement between them was misaligned and retried, the later log overwriting the earlier |
| TemplateBatch.AtMostFiveEvaluations | cli/run_template_batch.py:53-98 | unless the controller grants a retry, one to five evaluations happen, the run ends by a copy, at the last iteration, or on a refused retry, and a passing run leaves `<base>_template1.yaml` on disk |
| TemplateWorkflow.VersionNameInjective | cli/run_template_batch_v1.py:74-76 | distinct version counters give distinct names `<base>_v<n>`, whatever suffix follows |
| TemplateWorkflow.ImprovedPathInjective | cli/run_template_batch_v1.py:91 | distinct versions name distinct improvement files |
| TemplateWorkflow.Body | cli/run_template_batch_v1.py:71-117 | one pass scores the current file at its version; a pass with an improvement wrote it to the next version's file; the loop goes on only below the threshold and before the last iteration, to the next version and the improved file when aligned, or to the same file and version when a retry was granted |
| TemplateWorkflow.GoCounts | cli/run_template_batch_v1.py:69 | the loop makes no round exactly when it starts past `MAX_ITERATIONS`, and at most one round per unit of fuel |
| TemplateWorkflow.GoTrace | cli/run_template_batch_v1.py:64-120 | the first round scores the start file at the start version, each round follows the one before (aligned: next version, improved file; retried: same file and version), and versions stay within `MAX_ITERATIONS` |
| TemplateWorkflow.ChainedCons | cli/run_template_batch_v1.py:110-120 | a round followed by a chained trace whose first round follows it is a chained trace |
| TemplateWorkflow.GoCloses | cli/run_template_batch_v1.py:78-117 | how a run ended says what its last round saw: a pass copied the last text to the target (or the target was the file itself), the last version stopped below the threshold without improving, a refused retry followed a misaligned improvement |
| TemplateWorkflow.GoWithoutRetries | cli/run_template_batch_v1.py:69-120 | without granted retries the loop makes at most one round per version left and never runs out of fuel when given that many |
| TemplateWorkflow.GoLeavesOthers | cli/run_template_batch_v1.py:81-92 | the loop writes only the target and improvement files of later versions; every other file is left as it was |
| TemplateWorkflow.GoKeepsAligned | cli/run_template_batch_v1.py:91-120 | an aligned improvement is on disk with its text when the run ends: later rounds never overwrite it |
| TemplateWorkflow.RetryKeepsVersionName | cli/run_template_batch_v1.py:74-114 | consecutive rounds log under the same version name exactly when the improvement between them was misaligned and retried |
| TemplateWorkflow.Record | cli/run_template_batch_v1.py:74-108 | after one more round the logs are those of all rounds so far: the earlier logs followed by this round's evaluation and improvement logs |
| TemplateWorkflow.Advance | cli/run_template_batch_v1.py:71-120 | one pass of the body with its logs: a stopping pass is the whole rest of the run, otherwise the run is this round followed by the run from the state it leads to |
| TemplateWorkflow.Workflow | cli/run_template_batch_v1.py:64-121 | the loop from version 1 ends with exactly the files, rounds and ending of the loop specification, and its logs are those of its rounds |
| TemplatePromptLoop.RunTemplateLoop | workflows/template_prompt_loop.py:31-69 | as written: a failure to build the agents is raised; with no iteration allowed nothing is read or written; a missing prompt raises FileNotFound at the first read; otherwise the quality call's exception, or else AttributeError from `strftime` on the `str` that `cet_now()` returns, so the loop never writes a file |
| TemplatePromptLoop.RunTemplateLoopIntended | workflows/template_prompt_loop.py:31-69 | the corrected loop of the Findings row, with a minute stamp that can be formatted: no iteration allowed leaves the files alone, a missing prompt raises at the first read, and otherwise the result is the loop specification from version 1 in the prompt's folder, under the base name with `_v1` removed |
| TemplatePromptLoop.FeedbackPathInjective | workflows/template_prompt_loop.py:49-50 | feedback files of different versions never share a name, whatever their timestamps |
| TemplatePromptLoop.FeedbackNameSplit | workflows/template_prompt_loop.py:50 | the feedback file name splits after `_v` and after the version |
| TemplatePromptLoop.FeedbackIsNotYaml | workflows/template_prompt_loop.py:50-64 | a feedback file is neither a numbered version nor the final copy |
| TemplatePromptLoop.FinalIsNotAVersion | workflows/template_prompt_loop.py:54-64 | `<base>_final.yaml` is never a numbered version `<base>_v<n>.yaml` |
| TemplatePromptLoop.LoopKeeps | workflows/template_prompt_loop.py:42-69 | in the corrected loop, a file the loop never writes from a version on keeps its content to the end |
| TemplatePromptLoop.LoopShape | workflows/template_prompt_loop.py:42-69 | in the corrected loop, the run is empty exactly when no iteration is allowed; versions are scored in order, one pass each, from the given file; every pass but the last failed and its improvement is what the next reads; the last improves nothing |
| TemplatePromptLoop.LoopEnds | workflows/template_prompt_loop.py:53-61 | in the corrected loop, the run ends with a copy exactly when the last version scored passed (onto itself when it was the final file); a copy holds the passing text; stopping at the limit means every allowed version was scored and the last failed |
| TemplatePromptLoop.FeedbackUntouched | workflows/template_prompt_loop.py:50-66 | in the corrected loop, a version's feedback file is written by no later step |
| TemplatePromptLoop.VersionUntouched | workflows/template_prompt_loop.py:50-66 | in the corrected loop, a numbered version is written by no step once the loop has moved on to it |
| TemplatePromptLoop.FeedbackKept | workflows/template_prompt_loop.py:49-51 | in the corrected loop, every version scored leaves its dumped feedback under its own name to the end of the run |
| TemplatePromptLoop.ImprovementKept | workflows/template_prompt_loop.py:64-66 | in the corrected loop, every improvement is on disk as its numbered version at the end of the run |
| RetryUtils.AfterIncrements | utils/retry_utils.py:7-15 | after any sequence of `increment` calls from the defaults, the count is the number of calls, a retry is allowed exactly when there was one, and the reason is the last one given |
| RetryUtils.LastReasonWins | utils/retry_utils.py:12-15 | only the last reason survives, and counts add up over consecutive calls |
| RetryUtils.RetryStatus.constructor | utils/retry_utils.py:7-10 | a new status allows no retry, counts none and has no reason |
| RetryUtils.RetryStatus.Increment | utils/retry_utils.py:12-15 | a retry becomes allowed, the count goes up by exactly one, the reason is replaced, and the count stays the number of calls since construction |
| RetryBound.RetryLimit | controller/agent_orchestrator.py:31-75 | `retries < self.max_retries` has an integer bound exactly when `max_retries` is a number or a boolean; any other value makes the comparison raise a TypeError |
| RetryBound.RetryLimitMeansLess | controller/agent_orchestrator.py:75 | the integer bound decides `retries < max_retries` exactly as Python's comparison does, for numbers (the ceiling) and booleans |
| AgentOrchestrator.Construct | controller/agent_orchestrator.py:23-31 | the constructor succeeds exactly when the configuration is a dict, keeps the workflow id and agents, takes `max_retries` from the configuration when present and derives the loop bound from it |
| AgentOrchestrator.DefaultOneRetry | controller/agent_orchestrator.py:31 | without a `max_retries` entry the loop bound is 1 |
| AgentOrchestrator.QualityLoop | controller/agent_orchestrator.py:74-112 | the `while retries < max_retries` loop returns exactly the result and calls of the loop specification from the first event |
| AgentOrchestrator.RunWithQuality | controller/agent_orchestrator.py:58-112 | `_run_with_quality` returns exactly the result and calls of its specification: the stage's first run, then the quality loop |
| AgentOrchestrator.RoundMeetsSpec | controller/agent_orchestrator.py:76-110 | one loop round checks the current event with the event as parent, stops when `evaluation.passed` is truthy, and otherwise asks for an improvement with the quality check as parent and re-runs the stage on the same input with the improved prompt and the improvement as parent |
| AgentOrchestrator.RoundSteps | controller/agent_orchestrator.py:76-110 | a round's calls are chained by parent event ids, carry the workflow id, template name and iteration, and every re-run is fed by the improvement before it |
| AgentOrchestrator.RoundOfMeetsSpec | controller/agent_orchestrator.py:76-110 | every round the loop can make meets the round's promise |
| AgentOrchestrator.RoundCounts | controller/agent_orchestrator.py:76-110 | a round makes one quality check, at most one improvement, and at most one re-run |
| AgentOrchestrator.RetriesLinks | controller/agent_orchestrator.py:74-112 | the quality loop makes no call when no retries remain, otherwise first checks the current event; all its calls are chained, belong to the run, and re-runs are fed by improvements |
| AgentOrchestrator.RetriesResult | controller/agent_orchestrator.py:74-112 | the quality loop checks at most once per retry left; when it succeeds the stage was re-invoked once per improvement and returns either the event a check passed or, retries used up, the last re-run's event unchecked |
| AgentOrchestrator.WithQualityLinks | controller/agent_orchestrator.py:58-112 | the stage agent runs first with the given input and parent, every later call names the event before it, a bound of zero returns the first event unchecked, a bound the comparison rejects raises after the first run |
| AgentOrchestrator.WithQualityResult | controller/agent_orchestrator.py:58-112 | `_run_with_quality` always calls the stage once; when it succeeds the stage is invoked once plus once per improvement, with no more checks than the bound, returning a passed event or the last re-run's |
| AgentOrchestrator.AfterFirstRun | controller/agent_orchestrator.py:66-75 | the stage's first run in front of the quality loop's calls adds one stage run and no check |
| AgentOrchestrator.CompanyGetsUsecaseNameAsWritten | controller/agent_orchestrator.py:158-165 | as written, a run on the use case template tells the company stage the use case template's name |
| AgentOrchestrator.StageNamesFollowTemplates | controller/agent_orchestrator.py:119-167 | on a base name made of the use case template and a suffix, every stage is told its own template's name with that suffix |
| AgentOrchestrator.StageStarts | controller/agent_orchestrator.py:66-72 | a stage attempt starts by running that stage on its input under its parent with its template name, and its calls are chained and belong to the run |
| AgentOrchestrator.StagesFeedForward | controller/agent_orchestrator.py:119-171 | `run` makes one to four stage attempts in order, stops only at an exception, and starts each stage on the previous stage's payload with the previous event as parent |
| AgentOrchestrator.RunStages | controller/agent_orchestrator.py:119-171 | the four stages run exactly as their specification says, and the result is the last attempt's |
| AgentOrchestrator.Run | controller/agent_orchestrator.py:114-171 | a missing sample file or a load error raises before any agent runs; otherwise the stages run on the loaded sample, each told the name `run` derives from the original `base_name` (so the company stage only gets its template's name when that base names the industry template), and the company stage's event is the result |
| AgentOrchestrator.RunIntended | controller/agent_orchestrator.py:114-171 | the corrected run of the Findings row: the same errors, and the stages run with the company stage's name derived from the industry stage's name |
| CompanyMatch.FlattenForLlm | agents/matchmaking/company_match_agent.py:31-37 | a non-dict input is passed on unchanged; otherwise the result is the input itself or a list |
| CompanyMatch.FlattenPicksFirstListKey | agents/matchmaking/company_match_agent.py:33-36 | a dict gives the list under the first of `industries`, `industry_classes`, `sectors` that holds a list |
| CompanyMatch.FlattenKeepsOtherDicts | agents/matchmaking/company_match_agent.py:33-37 | a dict where none of the three keys holds a list is passed on unchanged |
| CompanyMatch.ChosenPrompt | agents/matchmaking/company_match_agent.py:122-129 | a non-empty override replaces the prompt; a missing or empty override leaves the default prompt around the industries' JSON |
| CompanyMatch.StrList | agents/matchmaking/company_match_agent.py:152 | the JSON strings of the names, one per name, in order |
| CompanyMatch.Names | agents/matchmaking/company_match_agent.py:152-157 | the names of a list of JSON strings, which give that list back |
| CompanyMatch.Matching | agents/matchmaking/company_match_agent.py:136-157 | names are returned exactly when the model answers, the left-stripped reply starts with `[` or `{`, an array can be cut out of it, and it holds only strings; the names are that array's strings; a model error is passed on; a reply starting otherwise is rejected as natural language |
| CompanyMatch.ProseRejected | agents/matchmaking/company_match_agent.py:142-146 | a reply starting with prose is rejected with its first 80 characters, even when a valid array follows |
| CompanyMatch.ProseStart | agents/matchmaking/company_match_agent.py:142-143 | text starting with neither whitespace nor a bracket keeps its start when left-stripped and fails both bracket tests |
| CompanyMatch.SuccessEvent | agents/matchmaking/company_match_agent.py:71-93 | the success event has status `success`, type `company_match`, a fresh id, and a payload with the input and the company names |
| CompanyMatch.RunErrorEvent | agents/matchmaking/company_match_agent.py:98-117 | the error event has status and type `error` and carries the exception's text in its payload |
| CompanyMatch.RunId | agents/matchmaking/company_match_agent.py:59-61 | a given workflow id is kept; otherwise the id is `company_` and at most six hex digits |
| CompanyMatch.Appended | utils/jsonl_event_logger.py:36-40 | appending to a log file extends that file's documents and leaves every other file as it was |
| CompanyMatch.AppendedTwice | utils/jsonl_event_logger.py:36-40 | two appends to the same file leave what one append of both lists leaves |
| CompanyMatch.CompanyMatchAgent.constructor | agents/matchmaking/company_match_agent.py:41-48 | a new agent keeps its log folder, has no workflow id and has logged nothing |
| CompanyMatch.CompanyMatchAgent.MatchCompanies | agents/matchmaking/company_match_agent.py:121-187 | the result is the matching for the chosen prompt; a success logs nothing; a failure appends one error document with the prompt and reply to the current workflow's log |
| CompanyMatch.CompanyMatchAgent.Run | agents/matchmaking/company_match_agent.py:50-119 | sets the workflow id; on success returns and logs the success event; on failure re-raises after the workflow's log gained two documents, the matching error and the run's error event |
| JsonSafety.ArraySnippet | utils/json_safety.py:18-24 | a snippet exists exactly when the text holds a `[` and a `]` and the last `]` comes after the first `[` |
| JsonSafety.ExtractJsonArray | utils/json_safety.py:6-34 | a non-string, a blank reply and a reply without a bracketed span each raise their ValueError; a list is returned exactly when the snippet decodes to a list, and it is the decoded list; every failure is a ValueError |
| JsonSafety.SnippetBounds | utils/json_safety.py:18-24 | the snippet runs from the first `[` to the last `]`: it opens and closes with them, nothing before it holds a `[` and nothing after it a `]` |
| JsonSafety.SliceParts | utils/json_safety.py:24 | a slice from an only `[` to an only `]` splits the text into a bracket-free prefix, the bracketed span and a bracket-free suffix |
| JsonSafety.SnippetIgnoresSurroundings | utils/json_safety.py:18-24 | any prefix without `[` and any suffix without `]` around a bracketed span leave that span as the snippet |
| JsonSafety.ResultDependsOnSnippet | utils/json_safety.py:14-34 | two non-blank replies with the same snippet give the same result: only the snippet reaches the decoder |
| ListExtractor.ExtractListAnywhere | utils/list_extractor.py:4-19 | any result is a list; a list is returned as it is; anything neither a list nor a dict gives None |
| ListExtractor.CandidateList | utils/list_extractor.py:12-14 | what a candidate key yields is a list |
| ListExtractor.SearchValues | utils/list_extractor.py:15-18 | what the search through a dict's values yields is a list |
| ListExtractor.WithinFrom | utils/list_extractor.py:15-18 | what lies within the value at position `j` lies within the values from any earlier position on |
| ListExtractor.LookupAt | utils/list_extractor.py:13 | a value found under a key is one of the dict's values |
| ListExtractor.CandidateWithin | utils/list_extractor.py:12-14 | a list a candidate key yields is held by one of the dict's values |
| ListExtractor.FoundIffReachable | utils/list_extractor.py:4-19 | any list found occurs inside the input, and a list is found exactly when one can be reached through dict values |
| ListExtractor.ValuesFoundIffReachable | utils/list_extractor.py:15-19 | the search through a dict's values finds a list exactly when one can be reached from those values, and it lies within them |
| ListExtractor.FirstCandidateWins | utils/list_extractor.py:11-14 | in a dict, the first candidate key (in the candidates' order) holding a list decides the result, whatever other keys or nested values hold |
| ListExtractor.CandidateAt | utils/list_extractor.py:12-14 | the candidate scan returns the list under the first candidate key holding one |
| ListExtractor.NoCandidate | utils/list_extractor.py:12-14 | with no candidate key holding a list the candidate scan yields nothing |
| ListExtractor.FirstValueWins | utils/list_extractor.py:11-18 | with no candidate key holding a list, the first dict value in which a list is found gives the result |
| ListExtractor.ValueAt | utils/list_extractor.py:15-18 | the value search returns what the first value yielding a list yields |
| JsonlEventLogger.EncodeList | utils/jsonl_event_logger.py:38 | an encoded list has one JSON value per item |
| JsonlEventLogger.EncodeEntries | utils/jsonl_event_logger.py:38 | an encoded dict keeps its keys, in order, one per entry |
| JsonlEventLogger.EncodeSucceeds | utils/jsonl_event_logger.py:20-38 | encoding with the `default` hook succeeds exactly on values that hold no object other than enums and dates |
| JsonlEventLogger.EncodeListSucceeds | utils/jsonl_event_logger.py:20-38 | a list encodes exactly when every item does |
| JsonlEventLogger.EncodeEntriesSucceeds | utils/jsonl_event_logger.py:20-38 | a dict encodes exactly when every value does |
| JsonlEventLogger.EventLine | utils/jsonl_event_logger.py:29-39 | a line is written exactly when the event is a model or a mapping whose dict encodes, and it holds no newline |
| JsonlEventLogger.ModelsAndMappingsAgree | utils/jsonl_event_logger.py:29-35 | a Pydantic model and a plain mapping with the same fields are written identically |
| JsonlEventLogger.LogText | utils/jsonl_event_logger.py:40 | a log with at least one line ends with a newline |
| JsonlEventLogger.JsonlEventLogger.constructor | utils/jsonl_event_logger.py:15-17 | the log path is `<log_dir>/<workflow_id>.jsonl`, over the lines the file already holds |
| JsonlEventLogger.JsonlEventLogger.LogEvent | utils/jsonl_event_logger.py:19-40 | an event that can be written appends exactly its line and a newline to the file's text; otherwise the error is raised and nothing is appended |
| JsonlEventLogger.AppendKeepsPrefix | utils/jsonl_event_logger.py:37-40 | appending a line keeps the earlier text as a prefix |
| AgentEventLog.TimestampPart | agents/utils/event_logger.py:24 | the file name's timestamp is the first 19 characters of the event's, with every `:` and `.` turned into `-` |
| AgentEventLog.TimestampPartOfPrefix | agents/utils/event_logger.py:24 | only the first 19 characters of the timestamp reach the file name |
| AgentEventLog.LogPath | agents/utils/event_logger.py:22-28 | the file sits in the folder named after the event type under the log folder, and is named `<agent>_<timestamp part>.json` |
| AgentEventLog.SamePathForSameSecond | agents/utils/event_logger.py:22-28 | events of one type and agent whose timestamps share their first 19 characters go to the same file |
| AgentEventLog.PathKeepsEventType | agents/utils/event_logger.py:26-28 | events of different types never share a file |
| AgentEventLog.WriteEventLog | agents/utils/event_logger.py:13-33 | anything but an `AgentEvent` fails the assertion and writes nothing; an event replaces its file's content by its JSON text and no other file changes |
| AgentEventLog.LaterEventOverwrites | agents/utils/event_logger.py:31-33 | a second event of the same type and agent in the same second leaves only its own text, as if the first had never been written |
| AgentEventLog.Overwrite | agents/utils/event_logger.py:32-33 | writing a file twice leaves the second text |
| ModelEventLog.WriteEventLog | utils/event_logger.py:17-32 | anything but a model fails the assertion; a model with a plain-string timestamp fails on `isoformat`; otherwise the model's JSON text replaces its file's content at the path built from the ISO timestamp |
| ModelEventLog.SchemaEventsOverwrite | utils/event_logger.py:21-31 | every event of the model schema is written, and a later one of the same type and agent in the same second replaces it |
| ManifestLoader.Get | utils/manifest_loader.py:18-21 | `d.get(key, default)` gives the dict's entry, the default for a missing key, and raises AttributeError on a value that is no dict |
| ManifestLoader.Elements | utils/manifest_loader.py:24 | `set(items)` succeeds exactly when every item is hashable, holds exactly the items, and otherwise raises TypeError |
| ManifestLoader.DependencySet | utils/manifest_loader.py:24 | the set of a list is its items, of a string its characters; any value other than a list, string or dict is not iterable |
| ManifestLoader.SubsetGrows | utils/manifest_loader.py:25 | a subset of some names stays a subset of any larger set of names |
| ManifestLoader.NamesSubset | utils/manifest_loader.py:24-25 | the set of a list of names is a subset exactly when every listed name is in the executed set |
| ManifestLoader.AgentManifest.constructor | utils/manifest_loader.py:9-15 | the manifest keeps its path and the loaded content |
| ManifestLoader.AgentEntry | utils/manifest_loader.py:17-18 | the agent's entry, `{}` for an agent the manifest does not name; raises when the manifest is no dict |
| ManifestLoader.AgentManifest.GetAgentMetadata | utils/manifest_loader.py:17-18 | the manifest's entry lookup `AgentEntry` on this manifest |
| ManifestLoader.AgentManifest.GetDependencies | utils/manifest_loader.py:20-21 | the entry's `dependencies`, `[]` for an unknown agent or a missing key; raises when the manifest or the entry is no dict |
| ManifestLoader.AgentManifest.ValidateDependencyChain | utils/manifest_loader.py:23-25 | answers exactly when the dependencies can be read and made a set, and the answer is whether every dependency was executed |
| ManifestLoader.AgentManifest.ValidIffAllExecuted | utils/manifest_loader.py:23-25 | for dependencies listed as names, the chain is valid exactly when each name was executed |
| ManifestLoader.AgentManifest.NoDependenciesValid | utils/manifest_loader.py:21-25 | an agent without dependencies is valid whatever has run, even when nothing has |
| ManifestLoader.AgentManifest.ValidStaysValid | utils/manifest_loader.py:23-25 | executing more agents never invalidates a chain |
| AgentManifestInfo.AgentManifest.constructor | utils/agent_manifest.py:9-15 | the manifest keeps its path and the loaded content |
| AgentManifestInfo.AgentManifest.GetAgentInfo | utils/agent_manifest.py:17-18 | the same entry lookup `AgentEntry` as the other manifest loader, on this manifest |
| AgentManifestInfo.AgentManifest.Dependencies | utils/agent_manifest.py:21-22 | the entry's `dependencies`, `[]` when the key is missing; raises when the entry is no dict |
| AgentManifestInfo.AgentManifest.ValidateDependency | utils/agent_manifest.py:20-23 | answers exactly when the dependencies can be read and made a set, and the answer is whether every dependency has completed |
| AgentManifestInfo.AgentManifest.ValidIffSubset | utils/agent_manifest.py:20-23 | for dependencies listed as names, validation holds exactly when each name has completed |
| AgentManifestInfo.AgentManifest.ValidStaysValid | utils/agent_manifest.py:20-23 | more completed agents never turn a valid dependency invalid |
| AgentSchemas.NewAgentEvent | agents/utils/schemas.py:15-44 | an event needs `event_type`, `agent_name` and `agent_version` and keeps them; a missing timestamp is the clock's, a missing step id or prompt version is None, missing meta and payload are empty dicts |
| AgentSchemas.AgentEventRoundTrip | agents/utils/schemas.py:15-44 | every event is rebuilt from its own fields, whatever the clock says |
| AgentSchemas.AgentEventIgnoresExtra | agents/utils/schemas.py:15-44 | keys the record does not declare change nothing |
| AgentSchemas.NewPromptQualityResult | agents/utils/schemas.py:47-69 | a result needs score, matrix, feedback and pass_threshold, keeps the score and flag given, and defaults issues to `[]` and the version to None |
| AgentSchemas.PromptQualityScoreUnchecked | agents/utils/schemas.py:54 | a score outside 0..1 is accepted: the documented range is not checked |
| AgentSchemas.NewImprovementResult | agents/utils/schemas.py:72-86 | a result is built exactly when the improved prompt and rationale are strings and the optional fields are well typed, with changes defaulting to `[]` and the version to None |
| AgentSchemas.NewControllerResult | agents/utils/schemas.py:89-106 | a result is built exactly when action, alignment score and rationale are well typed and details are a dict or missing, details defaulting to `{}`; the action is not checked against pass/retry/abort |
| Schema.NewPromptQualityResult | utils/schema.py:18-24 | the four required fields must be given; a score outside 0..1 is rejected, so any accepted score lies in 0..1; issues default to `[]` and the version to None |
| Schema.ScoreInRangeAccepted | utils/schema.py:18-24 | every score in 0..1 with the other fields given is accepted as it is |
| Schema.NewAgentEvent | utils/schema.py:27-35 | an event is built exactly when type, agent, version and `step_id` are strings, `payload` is a dict, the timestamp is absent or ISO date-time text, `prompt_version` is absent, None or a string and `meta` is absent or a dict; the built event keeps every given field, and an absent timestamp takes the current time |
| Schema.AgentEventRoundTrip | utils/schema.py:27-35 | every event whose timestamp is date-time text is rebuilt from its own fields |
| Schema.DateTimeOr | utils/schema.py:31 | a `datetime` field: absent gives the default, a given value is accepted exactly when it is ISO date-time text, and a rejected one names the field |
| Schema.CetNowTextAccepted | utils/schema.py:31 | the text the CET clock gives, with fraction and offset, is accepted as a timestamp |
| Schema.SecondsTextAccepted | utils/schema.py:31 | a date and time to the second, without fraction or zone, is accepted as a timestamp |
| Schema.NonDatesRejected | utils/schema.py:31 | a bare time and a date written with slashes are not timestamps |
| EventSchemas.ParseStatus | utils/schemas.py:17-22 | a text parses to the member whose value it is |
| EventSchemas.StatusValuesDistinct | utils/schemas.py:17-22 | the five members have distinct values, and each value parses back to its member |
| EventSchemas.NewAgentEvent | utils/schemas.py:25-32 | an event is built exactly when all seven fields are given with their types; a rejection names one of them |
| EventSchemas.EventIdRequired | utils/schemas.py:26 | an event without `event_id` is rejected, whatever else it carries |
| YamlVersion.StripIsSlice | cli/run_prompt_lifecycle.py:54-55 | the stripped line is a contiguous slice of the line |
| YamlVersion.ColonInVersionLine | cli/run_prompt_lifecycle.py:54-55 | a line whose stripped text starts with `version:` holds a colon, so the split after it is defined |
| YamlVersion.FirstMatchFrom | cli/run_prompt_lifecycle.py:53-54 | the index found is the first line from the start index on that matches, or the line count when none does |
| YamlVersion.FirstVersionLine | cli/run_prompt_lifecycle.py:53-54 | the index found is the first version line, or the line count when there is none |
| YamlVersion.VersionField | cli/run_prompt_lifecycle.py:53-56 | there is no declared value exactly when no line is a version line |
| YamlVersion.ParseVersionFromYaml | cli/run_prompt_lifecycle.py:52-57 | the value of the first version line with surrounding quotes stripped, or `0.1.0` when there is none |
| YamlVersion.ParseVersionFromYamlKeepQuotes | cli/run_template_batch_v1.py:42-47 | the value of the first version line with its quotes kept, or `0.1.0` when there is none |
| YamlVersion.VersionTag | cli/run_prompt_lifecycle.py:60 | the tag the rewrite looks for starts with `v` and is never empty |
| YamlVersion.ReplaceWithoutTag | cli/run_prompt_lifecycle.py:59-60 | a text without `version: old` is left as it is |
| YamlVersion.ReplaceSameVersion | cli/run_prompt_lifecycle.py:59-60 | rewriting a version to itself changes nothing |
| YamlVersion.TagIsVersionLine | cli/run_prompt_lifecycle.py:54-60 | the line `version: t` is a version line for any value ending in a non-space |
| YamlVersion.TagValue | cli/run_prompt_lifecycle.py:55-60 | the line `version: t` reads back as `t` when `t` has no colon and no surrounding whitespace |
| YamlVersion.PlainLineValue | cli/run_prompt_lifecycle.py:54-60 | the line `version: t` is a version line and reads back as `t` for a dotted number `t` |
| YamlVersion.PlainUnquoted | cli/run_prompt_lifecycle.py:56 | a dotted number has no quotes to strip |
| YamlVersion.VersionLineValue | cli/run_prompt_lifecycle.py:54-60 | the line `version: N.N.N` is a version line and reads back as `N.N.N`, with or without quote stripping |
| YamlVersion.FirstLine | cli/run_prompt_lifecycle.py:53 | the first line of `line` + newline + rest is `line` when it holds no line break |
| YamlVersion.ParseHeader | cli/run_prompt_lifecycle.py:52-57 | a file headed `version: N.N.N` declares that version, whatever follows, in both readers |
| YamlVersion.ReplaceHeader | cli/run_prompt_lifecycle.py:59-60 | rewriting the version of a file headed `version: a` to `b` gives a file headed `version: b`, the rest rewritten on its own |
| YamlVersion.ReplaceAtStart | cli/run_prompt_lifecycle.py:60 | an occurrence at the very start is replaced and the scan goes on after it |
| YamlVersion.RewrittenHeaderParses | cli/run_prompt_lifecycle.py:161-165 | after the loop's bump rewrite, a file headed with the old version declares the new one |

## Left out

- Event-file writes inside the lifecycle and latest-batch loops (`write_event_log`, cli/run_prompt_lifecycle.py:108-177, cli/run_template_batch_latest.py:78-125): these runs are recorded as a trace of steps, and writing an event file is modelled once, in `AgentEventLog`.
- `archive_prompt_file`: utils/archive_utils.py is not part of this model. The lifecycle returns the archive directory the promoted file is handed to.
- Agent construction, `OpenAIClient` and every LLM call: the agents and the LLM are oracles given as parameters.
- `ControllerAgent(client=client)` at cli/run_prompt_lifecycle.py:87 does not match the constructor at agents/controller_agent.py:19-21, which takes no `client`. The lifecycle model takes the controller as an oracle and does not model that constructor call.
- YAML and JSON decoding and encoding (`yaml.safe_load`, `json.load`, `json.loads`, `json.dumps`): oracles, or decoded values given as parameters. Logs written by the workflows are `LogData` values, not JSON text.
- Unicode: `\d` and `str.lower` are modelled on ASCII only.
- PEP 440 versions, as `packaging.version.Version` parses them, are restricted to the `N.N.N` form the code relies on.
- Text of exceptions: `str(e)` is approximated by the exception's name. `repr` escaping and traceback text are not modelled.
- CompanyMatch.Matching: the `str(result)` of a non-string list in the error message (agents/matchmaking/company_match_agent.py:154) is the list's Python repr; the model takes it from a `repr` oracle and does not spell it out.
- `time.sleep` between retries, wall-clock timestamps and uuids: left out or given as parameters.
- Directory creation, `print` output, `argparse` entry points and the `--all` batch drivers that loop over a directory.
- Floating point: scores and weights are exact reals.
- RawScoringMatrix.ComputeWeightedScore: the final `round(…, 4)` is not modelled. The result is the exact weighted average.
- PromptQualityAgentVs1.LoadScoringMatrix: a dimension entry whose name is not a string or whose weight is not a number makes the whole matrix empty. The source would instead raise later or use the odd key.
- TemplateWorkflow.Workflow: the `while` loops of cli/run_template_batch.py and cli/run_template_batch_v1.py can be prolonged without end by granted retries. The model bounds them with `fuel` and ends with `OutOfFuel` when the fuel is spent.
- TemplatePromptLoop.LoopEnds: stated for template names ending in `.yaml`, the only files the loop is run on. It describes the corrected loop: as written, the first pass raises (see Findings).
- TemplatePromptLoop.LoopShape: describes the corrected loop `RunTemplateLoopIntended`; as written, the first pass raises at workflows/template_prompt_loop.py:49 (see Findings).
- TemplatePromptLoop.FeedbackKept: describes the corrected loop; as written, no feedback file is ever written (see Findings).
- TemplatePromptLoop.ImprovementKept: describes the corrected loop; as written, no improvement is ever written (see Findings).
- TemplatePromptLoop.LoopKeeps: describes the corrected loop; as written, the store is never changed.
- TemplatePromptLoop.RunTemplateLoopIntended: the corrected loop, with a clock that gives a `%y%m%d_%H%M` stamp; the source has no such clock call that succeeds.
- TemplatePromptLoop.RunTemplateLoop: building the two agents and the quality call are oracles that may raise, and the model does not derive that they do: `PromptQualityAgent()` at workflows/template_prompt_loop.py:34 asks for a `RAW_SCORING_MATRIX` that config/scoring/raw_scoring_matrix.py does not define, `PromptImprovementAgent()` at line 35 omits the `openai_client` that agents/prompt_improvement_agent.py:21 requires, and line 46 calls `run` with one argument. As written these raise before line 49 is reached; the contract states only what follows from whichever error or value the oracles give.
- PatchLoop.ImproveLoop: the quality, improvement and controller agents are total oracles, so the model assumes they return. The as-written `PromptQualityAgent.run` of agents/prompt_quality_agent.py, which cli/run_prompt_lifecycle.py:31 imports, always raises (see Findings), and an exception in an agent is not modelled.
- TemplateWorkflow.Workflow: the scoring, improvement and controller agents are total oracles, assumed to return; the as-written `PromptQualityAgent.run` of agents/prompt_quality_agent.py always raises (see Findings), and an exception in an agent is not modelled.
- TemplatePromptLoop.FeedbackUntouched: describes the corrected loop; as written, no feedback file is ever written.
- TemplatePromptLoop.VersionUntouched: describes the corrected loop; as written, no version file is ever written.
- Schema.NewAgentEvent: a timestamp is accepted only as `YYYY-MM-DD` and `T` or a space and `HH:MM:SS`, then optional fraction digits, then `Z` or `±HH:MM`. Numbers (Unix times) and the other ISO spellings Pydantic accepts are rejected, the day is not checked against the month, and the stored value is the text, not the parsed `datetime`.
- The debug dump `debug_quality_response_<base>_v<version>.json` written at agents/prompt_quality_agent_vs1.py:62-65: a file written for inspection only, which nothing reads; the model does not write it.
- StageVersioning.PromoteMovesUp: stated for names in which no match of the old stage and version pattern begins inside the base; for the other names the as-written rewrite differs from the intended one (see Findings).
- AgentOrchestrator.Construct: the retry bound is computed once, when the orchestrator is built, from `max_retries`. The source compares against the field on each test, and nothing changes that field.
- ControllerAgent.Run: the unused `method` argument of `run` is not a parameter of the model.
- Behaviour described for the system but absent from the code: an environment-variable threshold, and JSON parsing that tolerates bullet lists. The model follows the code.

## Findings

| source | as written | input that shows it | evidently intended | confidence | as-written member | corrected member |
|---|---|---|---|---|---|---|
| utils/promt_versioning.py:132 | `re.sub` with the pattern `_{stage}_v{version}` treats each `.` as a wildcard and rewrites every match in the name | `_raw_v1x2x3_raw_v1.2.3.yaml` promoted to `templ` becomes `_templ_v1.2.4_templ_v1.2.4.yaml` | only the trailing stage and version tag is rewritten: `_raw_v1x2x3_templ_v1.2.4.yaml` | high, not executed | StageVersioning.AsWrittenRewritesBase | StageVersioning.PromotedNameRoundTrip |
| agents/llm_prompt_scorer.py:78-79 | without a `workflow_id` the default id calls `.isoformat(timespec="seconds")` on `cet_now()`, which utils/time_utils.py:15-19 returns as a `str`, so AttributeError is raised before anything is logged | `run(path, "t", 0)` | a file-name-safe workflow id built from the current time | high, not executed | LlmPromptScorer.RunAsWrittenAlwaysFails | LlmPromptScorer.DefaultWorkflowIdShape |
| agents/llm_prompt_scorer.py:111-124 | the `AgentEvent` is built without `event_id`, a required field at utils/schemas.py:26 | any prompt | the score event is validated and logged | high, not executed | LlmPromptScorer.RunAsWrittenAlwaysFails | LlmPromptScorer.RunLogsScore |
| agents/prompt_quality_agent.py:60-69 | the `AgentEvent` is built with undeclared fields and without the required `event_type` | any prompt | the quality event is validated and returned | high, not executed | PromptQualityAgent.RunAsWrittenAlwaysFails | PromptQualityAgent.RunReportsPass |
| workflows/template_prompt_loop.py:49 | the feedback stamp calls `.strftime` on `cet_now()`, which utils/time_utils.py:15-19 returns as a `str`, so the first pass raises AttributeError after scoring and before any file is written | none as written: lines 34, 35 and 46 raise first on every input and mask it; once they are fixed, any readable prompt with `max_iterations >= 1` | a minute stamp `%y%m%d_%H%M` of the current time names the feedback file | high, not executed | TemplatePromptLoop.RunTemplateLoop | TemplatePromptLoop.RunTemplateLoopIntended |
| controller/agent_orchestrator.py:158-165 | the company stage's prompt name is derived from the original base name, so a run on `usecase_detect_template…` hands the company stage the use-case name | base name `usecase_detect_template_v1` | each stage is named after its own template | medium, not executed | AgentOrchestrator.CompanyGetsUsecaseNameAsWritten | AgentOrchestrator.StageNamesFollowTemplates |
