# Clinical trial matching agent: the agentic loop and its tools

The system is an autonomous agent that matches a patient to clinical trials.
`ClinicalTrialAgent.run_autonomous_search` seeds a conversation with the
patient's criteria and then asks a language model for its next move, up to
ten times. When the model's stop reason is `tool_use`, the agent runs every
requested tool and answers with one result per request. Otherwise it returns
the last text block as the final answer. Throughout, it reports an activity
stream (`start`, `iteration`, `thinking`, `tool_call`, `tool_result`,
`complete`) to an optional callback.

The tools:
- a search, which calls the ClinicalTrials.gov v2 registry through
  `ClinicalTrialsAPI.search_studies`;
- a mock eligibility check on the patient's age;
- a mock ranking;
- a mock save;
- a mock details lookup.

The registry client also offers `get_study_details`.

The model is layered so that each layer can be read against the code:
- `PyValue`: the JSON values that tool inputs are, and the Python operations
  the handlers apply to them: `dict.get`, truthiness, iteration, `len`,
  `lower()`, `str()` and `join`. The type errors Python raises on a value of
  the wrong type are `PyError`.
- `ClinicalTrialsApi`: query building, the status map, the page-size clamp,
  the study → trial mapping, and the details lookup with its defaults. The
  HTTP registry is a function parameter from request to reply.
- `MockTools`: the five handlers and the name-keyed dispatcher.
- `ToolMenu`: the static tool definitions offered to the model.
- `AgentLoop`: the loop as functions (`RunBatch`, `RunFrom`, `Run`), plus
  lemmas about the conversation it builds and about the event protocol the
  activity stream follows.
- `Orchestrator`: the agent as a class whose `delivered` field is what the
  callback has received: one event per call, which determines the dict passed
  (`AgentLoop.Activity`). Its methods are the imperative loop of the source,
  each proved equal to the function it implements.

The language model is a function from the conversation so far to its
response. The system prompt, the tool menu, the temperature and the token
limit are the same on every call, so they are not parameters.

Where the code and the intended design of the system disagree, the model
follows the code:
- Tool input is not validated against the schemas. Missing arguments take
  the handler's `dict.get` defaults, and unknown tools produce an error
  payload.
- A handler exception is not caught: it escapes the loop, so a run ends
  either with its outcome or with the exception (`RunResult.Raised`).
- No `error` event is emitted.
- The patient criteria are not validated before the loop starts.

## Model

| member | source | states |
|---|---|---|
| PyValue.Lookup | agent/orchestrator.py:239-245 | `dict.get` finds a key exactly when the dict binds it, and the value found is that key's binding |
| PyValue.TruthyIsNonEmpty | services/clinicaltrials_api.py:47 | a string, list or dict is truthy exactly when its length is positive; an integer exactly when it is not 0, a boolean when it is true, and None never |
| PyValue.Iterate | agent/orchestrator.py:259 | `for x in v` raises exactly for None, booleans and integers; a list yields its items, a string its characters as one-character strings, and a dict its keys, in order |
| PyValue.Len | agent/orchestrator.py:305 | `len(v)` succeeds exactly when `v` is iterable and equals the number of elements iterated |
| PyValue.Lower | services/clinicaltrials_api.py:57 | `lower()` keeps the length and lower-cases each character |
| PyValue.LowerIdempotent | services/clinicaltrials_api.py:57 | lower-casing twice equals lower-casing once |
| PyValue.LowerAsciiLower | services/clinicaltrials_api.py:57 | a string without upper-case letters is its own lower-casing |
| PyValue.Join | services/clinicaltrials_api.py:62 | no parts join to "", one part to itself; otherwise the text starts with the first part, and its length is the parts' total plus one separator between each pair of neighbours |
| PyValue.JoinCons | services/clinicaltrials_api.py:62 | joining one more leading part puts exactly one separator between it and the join of the rest |
| PyValue.NatToString | agent/orchestrator.py:365 | the text of a natural number is decimal digits, without a leading zero, that denote the number |
| PyValue.IntToString | agent/orchestrator.py:270 | the text of an integer starts with a minus sign exactly when it is negative, followed by the digits of its magnitude; the text of a non-negative integer denotes it |
| PyValue.Str | services/clinicaltrials_api.py:48 | `str` shows None as "None", booleans as "True" and "False", an integer as its decimal text, a string as itself, a list between brackets and a dict between braces |
| ClinicalTrialsApi.StatusFilterCases | services/clinicaltrials_api.py:51-57 | the four map keys give their registry statuses (`all` gives no filter), and any other key falls back to RECRUITING |
| ClinicalTrialsApi.ApiStatusCases | services/clinicaltrials_api.py:51-60 | the status filter depends only on the lower-cased status: no filter exactly for `all`, the mapped status for the other keys, RECRUITING otherwise |
| ClinicalTrialsApi.DefaultStatusIsRecruiting | services/clinicaltrials_api.py:51-60 | the default status `recruiting` filters for RECRUITING studies |
| ClinicalTrialsApi.PageSize | services/clinicaltrials_api.py:67 | `min(max_results, 100)` succeeds exactly for integers and booleans, never exceeds 100, keeps an integer up to 100, and counts a boolean as 0 or 1 |
| ClinicalTrialsApi.QueryShape | services/clinicaltrials_api.py:45-62 | the query is the condition filter, then ` AND ` and the location filter if the location is truthy, then ` AND ` and the status filter if there is one |
| ClinicalTrialsApi.BuildQuery | services/clinicaltrials_api.py:45-62 | the filters appended one by one and joined with ` AND ` are the query that `QueryShape` describes |
| ClinicalTrialsApi.LocationStringCases | services/clinicaltrials_api.py:92-105 | no sites gives "Location not specified"; with both city and state of the FIRST site, "city, state"; with only the state, the state; without a state, "Location not specified"; later sites never matter |
| ClinicalTrialsApi.PhaseStringCases | services/clinicaltrials_api.py:111 | a missing phase list shows "N/A", an empty one "", one phase itself, two phases joined by ", ", and a longer list its first phase, ", " and the text of the remaining phases |
| ClinicalTrialsApi.MapTrialsPointwise | services/clinicaltrials_api.py:85-114 | one trial per study, in reply order, each the mapping of its own study |
| ClinicalTrialsApi.CollectTrials | services/clinicaltrials_api.py:84-114 | the loop appends exactly the mapped trials, one per study, in reply order |
| ClinicalTrialsApi.SearchOutcome | services/clinicaltrials_api.py:24-127 | a non-string status raises AttributeError and a non-comparable page size TypeError; any other input returns a response. The request's page size is at most 100; a failed request gives the error record with 0 trials; a reply gives one trial per study, with `trials_found` equal to their number and `total_available` defaulting to 0 |
| ClinicalTrialsApi.SearchStudies | services/clinicaltrials_api.py:44-127 | the imperative search (filters appended one by one, trials filled in a loop) returns exactly `Search` |
| ClinicalTrialsApi.GetStudyDetailsCases | services/clinicaltrials_api.py:129-182 | a failed request gives the API error; an empty reply gives exactly "Trial … not found"; otherwise the details of the first study echo the requested id, with gender defaulting to ALL and title to "" |
| MockTools.MockSearchTrials | agent/orchestrator.py:237-248 | the handler built on the imperative client returns `SearchTrials`'s result. A non-string condition raises AttributeError; without a status and a page size, the response answers the default request for 20 recruiting studies |
| MockTools.SearchTrialsDefaults | agent/orchestrator.py:237-248 | a non-string condition raises AttributeError before any request, and an absent condition is "". Without a status and a page size, the registry is asked for 20 studies: the condition filter, then the location filter if the location is truthy, then the RECRUITING filter. The response is built from the reply to that request |
| MockTools.AgeCheck | agent/orchestrator.py:260 | passes exactly for an integer age in 18..75; raises exactly for a truthy string, list or dict |
| MockTools.SplitByAgePartitions | agent/orchestrator.py:255-271 | raises exactly when there are ids and the age cannot be compared; otherwise all ids are eligible (in order) when the age qualifies and all are ineligible otherwise, each entry carrying its id and the matching reason |
| MockTools.EligibilityReportCases | agent/orchestrator.py:250-277 | `eligible_count` is the number of eligible entries; eligible plus ineligible entries number the trial ids; it raises exactly when the ids are not iterable, or are non-empty with an incomparable age |
| MockTools.CheckEligibility | agent/orchestrator.py:250-277 | the imperative loop appending to two lists returns exactly `Eligibility` |
| MockTools.RankTrialsOrder | agent/orchestrator.py:279-297 | one entry per id, in order; ranks are 1, 2, …, strictly increasing; distance is 5 + 3·index and increases with rank |
| MockTools.SaveResultsEcho | agent/orchestrator.py:299-306 | always `saved`, echoing the patient id; `trials_saved` is `len(matched_trials)` (a list's items, a string's characters, a dict's keys), 0 when the key is absent, and raises exactly for None, a boolean or an integer |
| MockTools.GetDetails | agent/orchestrator.py:308-326 | every field except the id is the fixed mock record, whatever the input; the id is the `nct_id` binding, or None when the key is absent |
| MockTools.DispatchRoutesByName | agent/orchestrator.py:218-235 | exactly the five tool names reach a handler, each its own; any other name returns the "Unknown tool" payload and never raises |
| ToolMenu.EvaluateMenu | agent/orchestrator.py:79-202 | the menu list literal raises exactly when an element is a set display holding a dict; otherwise it lists the definitions in order |
| ToolMenu.MenuAsWrittenRaises | agent/orchestrator.py:79-108 | the literal as written raises TypeError |
| ToolMenu.MenuMatchesDispatch | agent/orchestrator.py:75-202 | the corrected literal evaluates to the menu; it lists exactly the dispatcher's tool names in dispatch order; every definition's required fields are its own properties, named once each |
| ToolMenu.StatusEnumMatchesStatusMap | agent/orchestrator.py:95-98 | the statuses the menu offers are exactly the keys of the client's status map |
| ToolMenu.AsWrittenRunRaises | agent/orchestrator.py:361-374 | with the as-written menu every run raises TypeError in iteration 1, after only the `start` and `iteration` events |
| ToolMenu.CorrectedRunIsRun | agent/orchestrator.py:367-374 | with the corrected menu, the run is the loop of `AgentLoop.Run` |
| AgentLoop.BatchResultsMatch | agent/orchestrator.py:379-410 | a batch that does not raise answers every tool-use block once, in block order, with the block's id and the handler's output for that block's name and input |
| AgentLoop.LastTextIsLastTextBlock | agent/orchestrator.py:420-424 | the final answer is "" when no block is text; otherwise it is the text of the last text block |
| AgentLoop.Activity | agent/orchestrator.py:37-48 | the dict handed to the callback starts with the event's type and its content text |
| AgentLoop.ActivityDeterminesEvent | agent/orchestrator.py:37-48 | two events that give the same dict are the same event |
| AgentLoop.RunFromReaches | agent/orchestrator.py:361-414 | from any iteration and conversation: a success comes after tool turns up to the iteration before it, with an answer that asks for no tools; a failure is the limit, reached after tool turns up to iteration 10; a raise comes from the batch of a tool-use response that followed tool turns |
| AgentLoop.RunFromAfterTurns | agent/orchestrator.py:361-447 | conversely, once tool turns up to iteration `last` have extended the conversation: at the limit the run fails; an answer without tool use is the success with that conversation; a tool-use answer whose batch raises is that raise |
| AgentLoop.RunOutcome | agent/orchestrator.py:355-447 | a success at iteration n (1 ≤ n ≤ 10) holds the seed and n−1 tool turns (2n−1 messages); each turn is the model's tool-use response and its results; the model's answer to the whole conversation is not tool use, and its last text is the final answer. A failure is "Max iterations reached" at 10, after ten tool turns. A raise comes from the batch of a tool-use response after some tool turns |
| AgentLoop.RunSucceedsIff | agent/orchestrator.py:355-447 | a run succeeds at iteration n with conversation `conv` exactly when `conv` is the seed followed by n−1 tool turns and the model's answer to it asks for no tools |
| AgentLoop.RunFailsIff | agent/orchestrator.py:358-447 | a run fails with "Max iterations reached" exactly when the seed can be followed by ten tool turns |
| AgentLoop.RunRaisesIff | agent/orchestrator.py:361-404 | a run raises `e` exactly when, after the seed and some tool turns, the model asks for tools and that batch raises `e` |
| AgentLoop.ToolTurnResultsMatch | agent/orchestrator.py:406-414 | every tool turn is an assistant message of blocks followed by a user message of results matching its tool-use blocks one by one, by id |
| AgentLoop.AlwaysToolUseHitsLimit | agent/orchestrator.py:358-447 | a model that always asks for tools ends in the iteration-limit failure, unless a handler raises |
| AgentLoop.BlockFollowsProtocol | agent/orchestrator.py:381-404 | one block's events stay in the current iteration; a raising handler leaves its call awaiting a result |
| AgentLoop.BatchFollowsProtocol | agent/orchestrator.py:381-410 | a non-raising batch's events keep the stream in its iteration; a raising batch leaves a call open |
| AgentLoop.RunFromFollowsProtocol | agent/orchestrator.py:361-418 | continuing a well-formed stream, the loop's events follow the protocol and end in the stage its result implies |
| AgentLoop.RunFollowsProtocol | agent/orchestrator.py:328-447 | a run's events start with `start`, follow the protocol (iterations 1, 2, … with tool results right after their calls, tagged by iteration), and hold a `complete` event exactly when the run succeeds, as the last event |
| AgentLoop.RunFromEventsExtend | agent/orchestrator.py:361-418 | the loop only appends to the event stream |
| Orchestrator.FinalResponse | agent/orchestrator.py:420-424 | the extraction loop returns the text of the last text block |
| Orchestrator.ClinicalTrialAgent.constructor | agent/orchestrator.py:19-35 | a new agent has delivered nothing and remembers whether a callback was given |
| Orchestrator.ClinicalTrialAgent.LogActivity | agent/orchestrator.py:37-48 | the event reaches the callback if there is one, and nothing else changes |
| Orchestrator.ClinicalTrialAgent.ProcessToolCall | agent/orchestrator.py:204-235 | delivers the `tool_call` event, then returns the dispatcher's result for that name and input |
| Orchestrator.ClinicalTrialAgent.HandleBlock | agent/orchestrator.py:381-410 | one block's results, exception and delivered events are those of `BlockBatch` |
| Orchestrator.ClinicalTrialAgent.RunBlocks | agent/orchestrator.py:379-410 | the block loop's results, its exception and its delivered events are those of `RunBatch` |
| Orchestrator.ClinicalTrialAgent.RunAutonomousSearch | agent/orchestrator.py:328-447 | the imperative loop returns `Run`'s result, and the callback receives exactly `Run`'s events, in order |

## Left out

- Not part of this model, with the reason:
  - agent/logger.py (a log-file sink with no effect on the loop);
  - app.py and orchestrator.streamlit.py (the user interface);
  - test_agent.py (a manual script).
  - The `logger` branches of `_log_activity`, `log_final_response`, `log_error` and the `log_file` key of the result are left out with the logger.
- The Anthropic client is a function parameter (`Model`). Its keyword arguments, the model name, the API key, and the system and user prompt texts are left out. A failing model call is left out: the source does not catch it.
- The HTTP session, the URL and the timeout are left out. The `format` and `fields` query parameters are left out. A registry reply is the decoded pair (`studies`, `totalCount`); a failing request is one `RequestFailed` case, carrying the text of the exception.
- The registry and the tool executor are functions, so within one run the same search request always gets the same reply. A retried search after `API request failed` that succeeds the second time cannot be expressed; no stated property depends on this.
- A JSON `null` in a registry reply is treated as an absent key, so the model's defaults apply. The source behaves differently, and none of these raises is caught by its `RequestException` handler:
  - a null `studies` (services/clinicaltrials_api.py:84) or `phases` (:111) is `None`, and iterating or joining it raises TypeError;
  - a null module (`protocolSection`, `identificationModule`, …) is `None`, and the next `.get` on it raises AttributeError;
  - a null `totalCount` gives `total_available` None (:119) where the model gives 0;
  - a null `nctId`, `briefTitle` or `overallStatus` gives None in the trial (:108-110) where the model gives "";
  - a null `sex` gives `gender` None in the details (:176) where the model gives "ALL".
- Floating point is left out: the `relevance_score` of a ranking, and JSON numbers that are not integers in tool input.
- Timestamps (`datetime.now()`) on events and on the save result are left out.
- The tool result serialization is left out: the `json.dumps` text a tool result carries, and the `result_summary` length of the `tool_result` event. A result entry carries the handler's output itself.
- Tool descriptions and the `items` and `description` schema fields are left out, and so are the nested properties of `preference_weights`. The menu keeps names, property types, enums and required lists.
- The `conversation_history` field is left out; the source never uses it.
- Message content blocks other than text and tool use are left out (the source ignores them).
- AgentLoop.Run and Orchestrator.ClinicalTrialAgent.RunAutonomousSearch: both model the loop with the corrected tool menu. As written, building the menu at agent/orchestrator.py:372 raises, so every run raises in iteration 1 (`ToolMenu.AsWrittenRunRaises`).
- Orchestrator.ClinicalTrialAgent.LogActivity: a callback that raises aborts the run in the source, since agent/orchestrator.py:42-48 has no `try`; `delivered` models a callback that never fails.
- PyValue.Lower: only ASCII letters are lower-cased, not the full Unicode mapping.
- PyValue.Str: the contract fixes only the delimiters of a list or dict; the display of the elements (strings single-quoted, no escape rules) is given by the definition alone.
- PyValue.Iterate and PyValue.Len: a dict with a duplicate key is iterated and counted once per binding, whereas a decoded Python dict holds the key once.
- PyValue.Lookup: a JSON object with a duplicate key is read by its first binding, whereas Python's JSON decoding keeps the last one.
- ClinicalTrialsApi.PageSize: a boolean `max_results` becomes the page size 0 or 1, where Python would send `True` or `False` as the parameter.

## Findings

| source | as written | input that shows it | evidently intended | confidence | as-written member | corrected member |
|---|---|---|---|---|---|---|
| agent/orchestrator.py:79-108 | the first tool definition of `get_tool_definitions` sits inside an extra pair of braces. That makes it a set display containing a dict, which raises `TypeError: unhashable type: 'dict'`. The list is rebuilt for every model call, so every run raises in iteration 1, right after the `iteration` event. | any call of `run_autonomous_search`, e.g. criteria `{}` | a list of five flat tool definitions | not executed | ToolMenu.AsWrittenRunRaises | ToolMenu.CorrectedRunIsRun |
