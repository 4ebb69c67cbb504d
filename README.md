# Carbon0 carbon-data engine in Dafny

This project models the server-side engine of Carbon0 that completes a
product's carbon-footprint record one step at a time, and proves properties
of that model.

The record is a nested JSON map with five sections: `materials`,
`manufacturing_factor`, `transport`, `packaging` and `product_weight`.

- The completeness tracker lists what is missing and scores the record
  against a fixed 20 fields.
- The updater writes values through dotted and indexed field paths. It
  extends lists with `{}` and tags each written leaf with a `<leaf>_source`
  provenance entry, only the first time.
- A LangGraph workflow first asks a language model to estimate missing
  fields. It then alternates between the model and a web-search tool up to
  a search budget. Each search digest is mined for values. When searching
  stalls or the budget runs out, a planning agent contributes educated
  guesses and up to two follow-up searches.
- The Flask route flattens the pipeline's result into five fixed
  recommendation slots, `link1` to `link5`.

The language models, `json.loads`, `json.dumps`, `str`, web search, page
scraping and the product pipeline are foreign code. They appear as
function-valued parameters:

- `Nodes.Env` for the workflow;
- `SearchAgent.Web` for search;
- `ProductRoute.Printer` and the pipeline parameter for the route.

A foreign call that can raise returns `Outcome` (`Returned` or `Threw`).
A Python exception the code does not catch is modelled as the `Raised`
outcome of a `Result`. Each `try` in the source catches it where the source
catches it.

Modules follow the source files:

| module | file |
|---|---|
| `CarbonState`, `FieldPath`, `CarbonUpdate` | `carbon_state.py` |
| `SearchAgent` | `search_agent.py` |
| `BraceSpan` | the regex `\{[^}]+\}` of the extractor and the planner |
| `DataExtractor` | `data_extractor.py` |
| `PlanningAgent` | `planning_agent.py` |
| `Nodes` | `nodes.py` |
| `Graph` | `graph.py` |
| `Workflow` | `workflow.py` |
| `ProductRoute` | the response building of `routes/product.py` |

`Wrappers`, `Text` and `JsonValue` hold the `Result` and `Option` types, the
string helpers, and Python's dict, `in`, `len` and truthiness on JSON values.

Each loop of the source is a method with a `while` or `for` loop. It is
proved equal to a specification function, and the source's promises are
lemmas about that function. Examples:

- the list appending in `get_missing_fields`;
- the cursor walk and padding of `update_carbon_data`;
- the result loop of `search_carbon_info`;
- the fold loops of the extractor and of the three workflow nodes;
- the stream loop of `collect_carbon_data`;
- the five-slot loop of `receive_product`.

Some consequences of the code as written are proved as lemmas.

- The brace span `\{[^}]+\}` holds exactly one `}`
  (`BraceSpan.CandidateHasOneClose`). A decoded planning answer can
  therefore contain no nested dict.
- So the planning node never merges an educated guess. Absent guesses
  default to `{}`. Any other value makes `.items()` raise
  (`Nodes.PlanningMergesNoGuess`).
- `should_continue` never answers `max_reached`, so that entry of the
  label map is dead (`Nodes.DecisionMeaning`).
- A run visits at most `2 * max(0, max_searches) + 3` nodes
  (`Graph.RunBounds`).

Further facts of the code that the model keeps:

- The record `{"product_weight": {"value": ...}}` misses the four other
  sections: 4 entries and completeness 80
  (`CarbonState.ProductWeightOnlyStatus`).
- The provenance tags are `"LLM estimation"`, `"retrieved from web"` and
  `"planning agent educated guess"`.
- The planning node's follow-up extractions use the missing list computed
  before its guesses were merged.
- The extractor merges every decoded key, whether it was missing or not
  (`DataExtractor.KeysNotFiltered`).
- The estimator also skips an answer that is empty after `strip()`
  (`Nodes.UnknownRejected`).

## Model

| member | source | states |
|---|---|---|
| CarbonState.GetMissingFields | server/agents/carbon_state.py:6-51 | the appending loop over materials and sections yields exactly `MissingFields`, including the exception a non-container section raises |
| CarbonState.AppendMaterials | server/agents/carbon_state.py:10-19 | the materials loop yields exactly the materials part of `MissingFields`, including the exception a non-list or non-dict entry raises |
| CarbonState.MaterialsMissingOfDicts | server/agents/carbon_state.py:13-19 | for a list of material dicts, `materials[i].leaf` is listed exactly when material `i` lacks that leaf, and nothing else is listed |
| CarbonState.LeavesMissingOfDict | server/agents/carbon_state.py:29-44 | on a dict, `prefix.leaf` is reported exactly for the leaves it lacks |
| CarbonState.SectionContribution | server/agents/carbon_state.py:21-49 | an absent section contributes exactly its own name; a present dict section contributes exactly its absent leaves |
| CarbonState.SectionNamedIffAbsent | server/agents/carbon_state.py:6-51 | a dot-free missing entry is exactly the name of an absent section, or `materials` when it is absent or empty |
| CarbonState.MaterialsRaisedPrefix | server/agents/carbon_state.py:13-19 | an exception on any material element is an exception for the whole list |
| CarbonState.MaterialEntryIsPath | server/agents/carbon_state.py:15-19 | the entry text `materials[i].leaf` is the field path that addresses that leaf and parses back to it |
| CarbonState.MaterialEntriesDistinct | server/agents/carbon_state.py:15-19 | entries of different materials or different leaves are different strings |
| CarbonState.EmptyMaterialsCount | server/agents/carbon_state.py:13-19 | `k` empty material dicts give `3k` entries |
| CarbonState.Completeness | server/agents/carbon_state.py:101-109 | completeness is `5*(20-n)`, equals 100 exactly when `n = 0` and is negative exactly when `n > 20` |
| CarbonState.AvailableKeys | server/agents/carbon_state.py:107 | the available keys are exactly the record's keys other than `materials` |
| CarbonState.AvailableKeysInOrder | server/agents/carbon_state.py:107 | the available keys keep the record's order: a concatenation's are its first part's followed by its second's, and one member contributes its key unless it is `materials` |
| CarbonState.CarbonDataStatus | server/agents/carbon_state.py:99-111 | the status exists exactly when the missing list does and a present `materials` has a length |
| CarbonState.StatusMeaning | server/agents/carbon_state.py:99-111 | the status reports the missing list; 100 exactly when nothing is missing; `has_materials` exactly when `materials` is not reported missing |
| CarbonState.EmptyRecordStatus | server/agents/carbon_state.py:99-111 | an empty record misses the five sections in order and scores 75 |
| CarbonState.ProductWeightOnlyStatus | server/agents/carbon_state.py:99-111 | a record with only `product_weight.value` misses the other four sections and scores 80 |
| CarbonState.CompletenessGoesNegative | server/agents/carbon_state.py:102-109 | six or more empty materials and no sections score below zero: the percentage is not clamped |
| FieldPath.ParsePath | server/agents/carbon_state.py:58-65 | a path without `.` is read as one literal top-level key; a dotted path has at least two parts |
| FieldPath.ParseSegment | server/agents/carbon_state.py:63-65 | a part without both brackets is a plain key; an indexed part splits at its only `[` |
| FieldPath.PathRoundTrip | server/agents/carbon_state.py:58-65 | every path of two or more printable segments, formatted, parses back into them |
| CarbonUpdate.UpdateCarbonData | server/agents/carbon_state.py:54-96 | the walk over a copy with a cursor, padding and in-place writes yields exactly `Update`, including its exceptions |
| CarbonUpdate.PadList | server/agents/carbon_state.py:68-69 | the padding loop yields exactly `Pad`, which keeps the old elements, appends only `{}` and reaches length `max(len, index+1)` |
| CarbonUpdate.DescendStep | server/agents/carbon_state.py:62-74 | one step of the walk yields exactly `Descend`, which raises unless the cursor is a dict and, when indexing, leaves the index inside the padded list |
| CarbonUpdate.WriteLastStep | server/agents/carbon_state.py:76-89 | the write at the last part yields exactly `WriteLast`, which raises unless the cursor is a dict and, for a final `key[i]`, the value under `key` is absent or a list |
| CarbonUpdate.WriteReadsBack | server/agents/carbon_state.py:58-89 | after a dotted write, the path reads back the written value |
| CarbonUpdate.SourceTagFirstWriteWins | server/agents/carbon_state.py:86-89 | after a write ending in a plain key, the sibling tag is the old tag if there was one, else the new source |
| CarbonUpdate.SecondWriteKeepsSource | server/agents/carbon_state.py:86-89 | writing a path twice keeps the second value and the first source |
| CarbonUpdate.TopLevelWrite | server/agents/carbon_state.py:90-94 | a dot-free path writes that literal key, tags it only if untagged, and changes no other key |
| CarbonUpdate.DottedWriteFrame | server/agents/carbon_state.py:58-74 | a dotted write changes no top-level key except its first part's |
| CarbonUpdate.IndexedWriteShape | server/agents/carbon_state.py:63-84 | an indexed part pads its list to length `max(len, i+1)` with `{}`; a final indexed part stores the value with no tag |
| CarbonUpdate.WriteKeepsLeaving | server/agents/carbon_state.py:58-89 | a dotted write changes nothing but its own path: any path that leaves it at any depth, at another key (not the final key's tag) or at another element the list already had, reads the same before and after |
| CarbonUpdate.SiblingKept | server/agents/carbon_state.py:76-89 | a write ending in a plain key keeps every sibling of that key other than its tag, e.g. `materials[0].weight` keeps `materials[0].name` and `transport.distance` keeps `transport.mode` |
| CarbonUpdate.PaddingExample | server/agents/carbon_state.py:63-70 | `materials[2].name` on `{}` gives `[{}, {}, {name, name_source}]` |
| CarbonUpdate.LiteralBracketKeyExample | server/agents/carbon_state.py:90-94 | `materials[0]` without a dot is a literal key with its own tag |
| CarbonUpdate.UpdateOfDotted | server/agents/carbon_state.py:58-65 | a dotted update raises exactly when a part fails to parse or the write raises |
| SearchAgent.SearchCarbonInfoRun | server/agents/search_agent.py:21-55 | the search-and-scrape loop yields exactly `SearchCarbonInfo` |
| SearchAgent.GatherResults | server/agents/search_agent.py:33-41 | the result loop yields exactly `Gathered`: the first raising scrape ends it |
| SearchAgent.GatheredHitsSound | server/agents/search_agent.py:33-41 | no more results than links; each result is a link at its 1-based rank, with non-empty content cut to 2000 characters |
| SearchAgent.GatheredRanksIncrease | server/agents/search_agent.py:34-41 | ranks strictly increase along the results |
| SearchAgent.GatheredHitsComplete | server/agents/search_agent.py:34-41 | every link was scraped, and it has a result exactly when its page is non-empty |
| SearchAgent.AllEmptyPages | server/agents/search_agent.py:33-48 | when every page is empty the results are empty but the search still succeeds |
| SearchAgent.SearchOutcomes | server/agents/search_agent.py:21-55 | no links fail with "No results found"; an exception fails with its text; success exactly otherwise, with `result_count = len(results) <= len(links)` |
| SearchAgent.GatheredThrowsOnward | server/agents/search_agent.py:34-35 | once a scrape raises, the search raises that exception |
| SearchAgent.SearchGeneral | server/agents/search_agent.py:58-60 | `search_general` equals `search_carbon_info` on the same arguments |
| SearchAgent.FormatSearchResult | server/agents/search_agent.py:63-72 | the accumulating loop yields exactly `Digest` |
| SearchAgent.AppendParagraphs | server/agents/search_agent.py:68-72 | appending one paragraph per hit to a head yields the head followed by the hits' paragraphs in order |
| SearchAgent.DigestParagraphs | server/agents/search_agent.py:68-72 | a successful digest is the header, then one `[rank] url` paragraph per result in order, content cut to 500 characters |
| SearchAgent.DigestMarkers | server/agents/search_agent.py:63-72 | a failure reads "Search failed: " plus the error, or "Unknown error"; a success starts "Search: " |
| SearchAgent.NoLinksDigest | server/agents/search_agent.py:24-31 | no links digest to "Search failed: No results found" |
| BraceSpan.FirstSpan | server/agents/data_extractor.py:40 | the match is the leftmost `{` followed by one or more non-`}` characters and a `}`; none exactly when no such span exists |
| BraceSpan.CandidateHasOneClose | server/agents/data_extractor.py:40 | the span contains exactly one `}`, its last character |
| BraceSpan.SpanEndUnique | server/agents/data_extractor.py:40 | a span from a given brace ends at the first `}` after it |
| BraceSpan.SkipsEmptyBraces | server/agents/data_extractor.py:40 | `{}` is not a match; the search moves on to the next brace |
| BraceSpan.CutsAtFirstClose | server/agents/planning_agent.py:108 | a nested object is cut at its first closing brace |
| DataExtractor.ExtractDataFromSearch | server/agents/data_extractor.py:23-63 | the extractor with its update loop yields exactly `Extract` |
| DataExtractor.NothingMissingNoCall | server/agents/data_extractor.py:31-32 | an empty missing list returns the record unchanged and never consults the model |
| DataExtractor.FailSoft | server/agents/data_extractor.py:36-63 | a raising call, no span, a failed decode, a truthy non-dict decode (`.items()` raises) or a raising update leave the record unchanged and `extracted` empty |
| DataExtractor.ChangeMeansFold | server/agents/data_extractor.py:39-50 | a changed record is the fold of the decoded pairs through `update_carbon_data` with "retrieved from web" |
| DataExtractor.KeysNotFiltered | server/agents/data_extractor.py:48-50 | the outcome does not depend on which fields are missing, only on there being some |
| DataExtractor.FoldOne | server/agents/data_extractor.py:49-50 | one decoded pair is one update with the web tag |
| DataExtractor.FoldAppend | server/agents/data_extractor.py:49-50 | folding two lists of pairs is folding the first, then the second |
| DataExtractor.FoldRaisesOnward | server/agents/data_extractor.py:49-50 | an update that raises part-way makes the whole fold raise |
| PlanningAgent.PlanNextStepsRun | server/agents/planning_agent.py:84-137 | the planner with its search loop yields exactly `PlanNextSteps` |
| PlanningAgent.ParseRun | server/agents/planning_agent.py:99-119 | the parsing step yields exactly `Parsed`: the defaults, overwritten by the decoded object's fields when a brace match decodes |
| PlanningAgent.SearchesRun | server/agents/planning_agent.py:121-129 | the search loop yields exactly `Searches`: one formatted search per query, in order |
| PlanningAgent.DefaultsWhenUnparsed | server/agents/planning_agent.py:99-119 | with no span or a failed decode, the guesses are `{}`, the suggestions `[]`, the reasoning "" and the confidence "low" |
| PlanningAgent.PlannedSearchesShape | server/agents/planning_agent.py:121-129 | `search_results` exists exactly when searches are enabled and `suggested_searches` is truthy and sliceable; it holds one entry per query of the first two, in order, each searched with two results |
| PlanningAgent.FirstTwo | server/agents/planning_agent.py:123 | slicing succeeds exactly on a list, a string or a falsy value, and yields at most two queries |
| PlanningAgent.ErrorResult | server/agents/planning_agent.py:132-137 | an exception gives no guesses, no suggestions and an error |
| PlanningAgent.GuessesNeverObjects | server/agents/planning_agent.py:108-117 | if decoded dicts need their own `}`, the guesses are never a non-empty dict |
| Nodes.EstimateMissingData | server/agents/nodes.py:57-133 | the estimate loop yields exactly `Estimate` |
| Nodes.Estimate | server/agents/nodes.py:57-133 | the estimate node keeps the product, budget, context and search count |
| Nodes.EstimateScored | server/agents/nodes.py:120-132 | when the record misses something, the estimate node's state carries the completeness score of its own record |
| Nodes.EstimatesWithinFields | server/agents/nodes.py:79 | every recorded estimate is under one of the fields asked about |
| Nodes.EstimateOneOutcome | server/agents/nodes.py:96-109 | a raising call or a rejected answer changes nothing; a kept answer is recorded, written and, on a dot-free field, read back with a first-write tag |
| Nodes.UnknownRejected | server/agents/nodes.py:107 | "unknown" in any case and the empty answer are rejected; a value is kept |
| Nodes.EstimateNothingMissing | server/agents/nodes.py:59-67 | with nothing missing, only `estimated_data` is reset to `{}` |
| Nodes.CallModel | server/agents/nodes.py:136-178 | the model node raises when the record's status cannot be computed (its system prompt computes it first); otherwise it appends exactly one message and keeps everything else |
| Nodes.CallToolRun | server/agents/nodes.py:181-293 | the tool loop yields exactly `CallTool` |
| Nodes.CallTool | server/agents/nodes.py:181-293 | the tools node raises `search_count` by exactly one and keeps the product, budget and context |
| Nodes.ToolsScored | server/agents/nodes.py:276-291 | the tools node's state carries the completeness score of its own record |
| Nodes.SearchStepRun | server/agents/nodes.py:200-267 | one tool call yields exactly `SearchStep` |
| Nodes.SearchFoldShape | server/agents/nodes.py:199-267 | each search call adds, in order, one history entry for its query and one tool message with its id and digest; the old history stays in front |
| Nodes.NoSearchCallStillCounts | server/agents/nodes.py:181-293 | a visit without a search call still counts as a search and keeps the record and history |
| Nodes.SearchFoldRaisesOnward | server/agents/nodes.py:248-252 | a raising save part-way makes the whole visit raise |
| Nodes.CallPlanningAgentRun | server/agents/nodes.py:296-368 | the planning node's loops yield exactly `CallPlanning` |
| Nodes.CallPlanning | server/agents/nodes.py:296-368 | the planning node keeps the messages, history, search count, product, budget and context |
| Nodes.PlanningScored | server/agents/nodes.py:361-366 | when the record misses something, the planning node's state carries the completeness score of its own record |
| Nodes.GuessesRecorded | server/agents/nodes.py:339-342 | every guess is recorded in `estimated_data` under its own path and nothing else there changes |
| Nodes.MergeRaisesOnward | server/agents/nodes.py:340-341 | a guess update that raises makes the planning node raise |
| Nodes.PlanningNothingMissing | server/agents/nodes.py:298-304 | with nothing missing the planning node changes nothing |
| Nodes.PlanningMergesNoGuess | server/agents/nodes.py:339-342 | under the decoder property above, the planning node never changes `estimated_data` |
| Nodes.ShouldContinue | server/agents/nodes.py:371-399 | the decision is one of four labels, and "continue" only below the budget |
| Nodes.DecisionMeaning | server/agents/nodes.py:378-386 | each label holds exactly under its condition in the order complete, budget reached, tool calls, stalled, end; never "max_reached" |
| Graph.RouteMeaning | server/agents/graph.py:27-37 | each target is reached from exactly its labels; no label leads to estimate or llm |
| Graph.GraphShape | server/agents/graph.py:24-40 | no edge returns to the entry; estimate and tools lead to llm, planning to the end |
| Graph.Step | server/agents/graph.py:16-40 | a node step keeps the run's identity, counts tools visits, goes to tools only below the budget and follows the fixed edges |
| Graph.StepScored | server/agents/graph.py:16-22 | every node step keeps a state's completeness that of its record, and the estimate step makes it so on a record with something missing |
| Graph.RunBounds | server/agents/graph.py:24-40 | a run visits at most `2B+3` nodes, tools at most `B = max(0, max - count)` times, planning at most once and estimate once; the final count is the start count plus the tools visits |
| Graph.RunEnds | server/agents/graph.py:24-40 | a run ends after the planning node or a model call, and planning only comes last |
| Workflow.CollectCarbonData | server/agents/workflow.py:28-153 | the driver with its stream loop yields exactly `Collect` |
| Workflow.FinishStream | server/agents/workflow.py:81-153 | the stream loop and report yield exactly `Finish` |
| Workflow.InitialState | server/agents/workflow.py:63-79 | the run starts with no searches, no history, no estimates and no plan |
| Workflow.FinishMeaning | server/agents/workflow.py:81-153 | an empty stream reports "Workflow failed" with the input record; otherwise the report is the last state's record, history, completeness and estimates, with achieved exactly when nothing is missing; the report is produced exactly when every streamed record has a missing list |
| Workflow.SummaryChoice | server/agents/workflow.py:111-115 | success text exactly when achieved; otherwise the percentage line, extended exactly when the count reached the maximum |
| Workflow.CollectMeaning | server/agents/workflow.py:36-153 | every report's completeness is that of its record; achieved exactly when that record misses nothing; "Workflow failed" never occurs |
| Workflow.ScanStream | server/agents/workflow.py:81-97 | the loop succeeds exactly when every streamed record has a missing list, and then keeps the last state (none for an empty stream) |
| Workflow.ReportRun | server/agents/workflow.py:108-115 | the report built from the final state is exactly `Report` |
| Graph.RunScored | server/agents/nodes.py:120-132 | every state a run streams carries the completeness score of its own record |
| Workflow.CollectBounds | server/agents/workflow.py:81-97 | the run behind a report visits at most `2*max(0, max_searches)+3` nodes and tools at most `max(0, max_searches)` times, with the final count equal to the tools visits |
| Workflow.DefaultBudgetWithinStepLimit | server/agents/workflow.py:32 | with the default ten searches a run visits at most 23 nodes |
| ProductRoute.RecFieldRun | server/routes/product.py:61-68 | the early-return loop yields exactly `RecField` |
| ProductRoute.FirstTruthyMeaning | server/routes/product.py:61-68 | the result is the value of the first key with a truthy value, none before it truthy, or "" when none is |
| ProductRoute.SlotRun | server/routes/product.py:90-108 | one slot's fields yield exactly `Slot` |
| ProductRoute.EmptySlot | server/routes/product.py:90-108 | the padded slot `{}` has link "", no score, explanation "" and image "" |
| ProductRoute.LinksMeaning | server/routes/product.py:88-108 | slot `i` is the empty slot when `i >= len(recs)`, else the slot of `recs[i]` |
| ProductRoute.LinksSlots | server/routes/product.py:88-108 | each of the first `n` links is the slot of the element at its index |
| ProductRoute.BuildResponseRun | server/routes/product.py:56-111 | the five-slot loop yields exactly `BuildResponse` |
| ProductRoute.ResponseMeaning | server/routes/product.py:84-111 | five slots; link from `web_url` then `url`, image from `image_url` then `image`, score from `cf_value`; `C0Score` is the product's `cf_value`; recommendations unchanged |
| ProductRoute.SlotOfRecord | server/routes/product.py:92-108 | a truthy recommendation yields a slot only if it is a dict, read from its own keys |
| ProductRoute.FlattenKeys | server/routes/product.py:70-111 | the response dict always has the same 25 keys, in insertion order (the order `jsonify` then serialises them in is not modelled), all five slots included |
| ProductRoute.ProductData | server/routes/product.py:26-41 | the product data copies the fixed keys and takes `sku`, falling back on `id` when falsy |
| ProductRoute.ReplyCodes | server/routes/product.py:20-120 | the code is 200, 400 or 500; 400 with "No data provided" exactly when the parsed body is falsy; every 500 is the generic error body |

## Left out

- File output is not modelled: `save_product_json`'s write and the `carbon_debug.json` dump. The status computation inside `save_product_json` is modelled, because it raises outside the `try`.
- Printing, logging, timestamps and the `debug_log`/`debug_steps` lists are left out. They do not affect control flow. Two exceptions are kept because they do: `reasoning[:200]` in the planning node's debug record, and the missing-field computation in the stream loop.
- The `extracted_count` debug record of the tools node calls `len` on `extracted`. That call raises only if a decoder returned a falsy non-dict, which `json.loads` never does for a text that starts with `{`, so it is not modelled.
- Prompt wording (`prompts.py`, `create_planning_prompt`) is left out. Each model parameter receives the values its prompt is built from. The one exception a prompt can raise, the status computation in `get_system_prompt`, is modelled in `Nodes.CallModel`.
- CarbonUpdate.WriteLast: JSON keys are strings in this model, so a final `key[i]` whose value is a dict with more than `i` entries raises. Python stores the value there under the integer key `i` (carbon_state.py:84).
- CarbonUpdate.UpdateCarbonData and CarbonUpdate.WriteLastStep inherit that case from `WriteLast`. Through them, so do `DataExtractor.Extract`, which then keeps the record unchanged, and the estimate node, which then skips the estimate.
- Module setup is left out: the API key and model construction in `nodes.py`, `tools.py`, `recommend.py`, the pipeline import, Flask's request and `jsonify`, and the browser extension `extension/popup.js`.
- JSON numbers are integers, and floating point is not modelled. Completeness is always a whole number, so the summary renders it as the integer followed by ".0".
- Text.Strip and Text.Upper: `strip()` covers the whitespace characters listed in `Text.IsSpace`, and `upper()` maps ASCII letters only.
- FieldPath.ParseSegment treats an index that is not plain decimal digits as an error. Python's `int()` also accepts a sign, surrounding spaces and underscores, and a negative index then counts from the end of the list.
- Exceptions carry no type. `Raised` stands for every exception; only a foreign call's message is kept, and only where the source stores it (`str(e)`).
- The exception text of a non-sliceable `suggested_searches` depends on the Python version, so it is represented as `NotSliceable`.
- Graph.Run: LangGraph's recursion limit of 25 steps is not modelled. `Workflow.DefaultBudgetWithinStepLimit` shows that the default budget stays below it.
- Workflow.Collect: the "values" stream mode is taken to yield the input state first and then the state after each node.
- Nodes.PlanningMergesNoGuess and PlanningAgent.GuessesNeverObjects rest on a stated property of the decoder (`BracesCloseObjects`: each decoded dict needs its own `}`). `json.loads` has this property, but the model does not derive it.
- `search_web`, `scrape_page`, the language models, `json.loads` and `json.dumps` are parameters with no content: the model proves only what holds for every answer they could give.
