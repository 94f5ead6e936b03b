# DoctorSathi agent — a Dafny model

This project models the Python agent behind HealthLink's DoctorSathi assistant.
Its two graph nodes run one after the other:

- `fetch_patient_context` normalises the doctor's workflow context to seven keys.
- `generate_response` first builds a text digest of that context (count lines, status counts and capped previews). It then asks the language model, with a system prompt built from the digest, and splits the reply into proposed actions and display text.

`invoke_agent` prepares the initial state and shapes the result dict. The command-line entry point `run_agent.py` defaults its positional arguments and parses the context JSON. It prints either the agent's result with exit code 0, or an error envelope with exit code 1.

The model receives its collaborators in an `Env` value:

- the language model: a function from the message history to an answer or a raised message;
- `json.loads`: a function from text to `Invalid` or a JSON value;
- the millisecond clock: the `k`-th reading of `time.time() * 1000`;
- `str()` of lists and dicts;
- `str(e)` of an exception the Python runtime raises.

Files and modules:

- `wrappers.dfy` (`Wrappers`): `Option`, `Result` and two small helpers.
- `text.dfy` (`Text`): `str.strip()`, substring occurrence and search, `"sep".join`, `str(int)`.
- `json.dfy` (`Json`): JSON values, Python truthiness, `dict.get`, `str()`, and the runtime faults on ill-shaped values.
- `action_blocks.dfy` (`ActionBlocks`): the non-greedy `**ACTION_START** … **ACTION_END**` scan shared by `re.findall` and `re.sub`, `parse_actions_from_response` and `remove_action_blocks`.
- `digest.dfy` (`Digest`): the summary builders of `generate_response` and its system prompt.
- `agent_graph.dfy` (`AgentGraph`): `fetch_patient_context`, the outcome of `generate_response`, and `invoke_agent`.
- `run_agent.dfy` (`RunAgent`): `main` of run_agent.py.

Where the source loops or mutates, it is modelled by a method proved equal to a specification function. The preview loops and the loop over matched regions, which stamps each parsed dict in place, are `while` loops with invariants. The early-exit sequence of summaries, the `.update` of the context and `main` are straight-line methods. The properties the source promises are lemmas about the specification functions.

Points where the documentation and the code differ; the code is followed:

- Action ids are `"action-"` followed by the clock reading in milliseconds. All actions stamped in the same millisecond get the same id, so ids are not unique. `ActionIdsCollide` states that ids are equal exactly when the readings are.
- `fetch_patient_context` keeps only its seven keys and drops every other key of the supplied context.
- The digest is built before the `try` block of `generate_response`, so a malformed context raises out of `generate_response` and is not turned into an apology. The error `main` prints then carries the prefix "Error invoking agent: " twice: once from `invoke_agent` and once from `main`.
- A region whose stripped interior is valid JSON but no dict makes the assignment of its `id` raise a `TypeError`. That is not a `JSONDecodeError`, so it aborts `parse_actions_from_response`. The `try` block of `generate_response` then turns it into the apology.

## Model

| member | source | states |
|---|---|---|
| AgentGraph.FetchPatientContext | middleware-api/python_agent/agent_graph.py:45-60 | the context has exactly the keys name, appointments, prescriptions, records, labTests, patients and stats; present values pass through; absent ones become "Doctor", `[]` or `{}` |
| AgentGraph.FetchIdempotent | middleware-api/python_agent/agent_graph.py:50-58 | normalising an already normalised context changes nothing |
| Digest.MatchingExact | middleware-api/python_agent/agent_graph.py:86-88 | a status filter keeps every item with a listed status, as often as it occurs in the input, and no other item, so each count in the header is the number of items with that status |
| Digest.MatchingDisjoint | middleware-api/python_agent/agent_graph.py:86-88 | filters on disjoint status sets count disjoint items: their counts add up to the count of the union filter |
| Digest.AppointmentCounts | middleware-api/python_agent/agent_graph.py:86-89 | the scheduled, completed and cancelled counts sum to the three-status filter's count, which is at most the total |
| Digest.LabTestCounts | middleware-api/python_agent/agent_graph.py:130-132 | the pending count is the PENDING count plus the IN_PROGRESS count; pending plus completed is at most the total |
| Digest.FirstNonDict | middleware-api/python_agent/agent_graph.py:86-88 | there is no item that fails `.get` exactly when every item is a dict; otherwise the one found is the first item that is not a dict, the one at which the comprehension raises |
| Digest.Cut50 | middleware-api/python_agent/agent_graph.py:124 | `description[:50]` is the first min(50, len) characters or elements of a string or list, and raises on any other value |
| Digest.FormatItemOutcome | middleware-api/python_agent/agent_graph.py:93-151 | a preview line starts with the bullet; formatting raises exactly on a non-dict item or an unsliceable record description |
| Digest.RecordLineCut | middleware-api/python_agent/agent_graph.py:119-124 | a record line shows the string description cut to its first 50 characters, followed by "..." |
| Digest.PreviewFromOk | middleware-api/python_agent/agent_graph.py:92-99 | the preview loop succeeds exactly when every previewed item formats |
| Digest.PreviewFromLines | middleware-api/python_agent/agent_graph.py:92-99 | a successful preview has one line per previewed item, in order, each that item's formatted line |
| Digest.PreviewFromFault | middleware-api/python_agent/agent_graph.py:92-99 | a failing preview raises the fault of the first previewed item that fails to format, all earlier ones formatting |
| Digest.PreviewLines | middleware-api/python_agent/agent_graph.py:92-153 | each of the five append loops over `items[:cap]` computes the preview lines or the first fault |
| Digest.SummaryOfEmpty | middleware-api/python_agent/agent_graph.py:84-153 | a falsy section gives its fixed sentence, such as "No appointments on record" |
| Digest.SummaryOfList | middleware-api/python_agent/agent_graph.py:84-153 | a non-empty list gives a header and exactly min(len, 5) preview lines (min(len, 20) for patients), each the formatted line of the matching item |
| Digest.SummaryStartsWithCount | middleware-api/python_agent/agent_graph.py:89 | the summary of a non-empty list starts with `len(list)` followed by " total " |
| Digest.SummaryOfNonList | middleware-api/python_agent/agent_graph.py:85-99 | a truthy value that is no list raises |
| Digest.SummaryInspects | middleware-api/python_agent/agent_graph.py:86-98 | a successful summary saw only dicts among the previewed items, and among all items when the section filters on status |
| Digest.BuildSummary | middleware-api/python_agent/agent_graph.py:84-99 | building one section's summary step by step computes the summary or its fault |
| Digest.StatFigures | middleware-api/python_agent/agent_graph.py:159-164 | the six statistics are read with default 0; a stats value that is no dict raises |
| Digest.DigestOfBlank | middleware-api/python_agent/agent_graph.py:75-164 | a context without data never raises: every section is its fixed sentence and every figure is 0 |
| Digest.BuildDigest | middleware-api/python_agent/agent_graph.py:75-164 | the summaries built in source order, leaving at the first raise, compute the digest |
| ActionBlocks.NextMatch | middleware-api/python_agent/agent_graph.py:283-284 | a found region starts at the leftmost start marker from the position and ends at the first end marker after it; none is found only when no start marker is followed by an end marker |
| ActionBlocks.ScanFindsAll | middleware-api/python_agent/agent_graph.py:283-284 | the scan returns the regions that non-greedy `re.findall` reports, characterised without the scan |
| ActionBlocks.FindAllIsScan | middleware-api/python_agent/agent_graph.py:283-284 | any region list with that characterisation is the scan's, so the match list is unique |
| ActionBlocks.SubDeletesScanned | middleware-api/python_agent/agent_graph.py:308-309 | `re.sub` with the same pattern deletes exactly the scanned regions and keeps the text between them |
| ActionBlocks.BlankDisplay | middleware-api/python_agent/agent_graph.py:308-310 | a reply holding nothing but action blocks and whitespace displays as the empty string |
| ActionBlocks.RemovesScannedRegions | middleware-api/python_agent/agent_graph.py:304-310 | the display text is the reply without the scanned regions, stripped |
| ActionBlocks.DecorateFields | middleware-api/python_agent/agent_graph.py:292-294 | an action has the parsed keys plus id, status and priority; id is "action-" + the reading; status is "pending"; priority is the supplied value or "medium"; other fields are unchanged |
| ActionBlocks.ActionIdsCollide | middleware-api/python_agent/agent_graph.py:292 | two actions get the same id exactly when stamped with the same millisecond reading |
| ActionBlocks.ActionsFromMeaning | middleware-api/python_agent/agent_graph.py:286-301 | the loop raises on the first interior that decodes to a non-dict; otherwise it returns the decoded dicts, in order, stamped with consecutive readings |
| ActionBlocks.ExtractedActions | middleware-api/python_agent/agent_graph.py:282-301 | actions come in document order, one per region whose stripped interior parses to a dict, so there are at most as many actions as regions; the `j`-th carries the `j`-th reading |
| ActionBlocks.StampedActions | middleware-api/python_agent/agent_graph.py:286-301 | the same as ExtractedActions for any list of interiors |
| ActionBlocks.StampAction | middleware-api/python_agent/agent_graph.py:292-294 | the in-place assignments of id, status and priority produce the decorated action |
| ActionBlocks.StampAll | middleware-api/python_agent/agent_graph.py:286-301 | the append loop over the matches computes the actions or the first fault |
| ActionBlocks.ParseActions | middleware-api/python_agent/agent_graph.py:276-301 | `parse_actions_from_response` computes the actions of the reply or the fault that aborts it |
| ActionBlocks.NoBlock | middleware-api/python_agent/agent_graph.py:283-310 | there is no match exactly when no start marker is followed by an end marker; then there are no actions and the display text is the stripped reply |
| ActionBlocks.OneRegion | middleware-api/python_agent/agent_graph.py:283-309 | a text with one start…end pair has that interior as its only match and loses exactly that region |
| ActionBlocks.ActionsFromSingle | middleware-api/python_agent/agent_graph.py:286-299 | a single interior gives no action if it is no JSON, one stamped action if it is a dict, and raises otherwise |
| ActionBlocks.OneBlock | middleware-api/python_agent/agent_graph.py:283-310 | a reply with one block shows the text around it stripped, whether or not the block parses; a dict block gives exactly one action |
| Text.StripMeaning | middleware-api/python_agent/agent_graph.py:310 | `strip()` returns the slice between a whitespace prefix and a whitespace suffix; the slice neither starts nor ends with whitespace |
| Text.StripIdempotent | middleware-api/python_agent/agent_graph.py:310 | stripping twice is stripping once |
| Text.FindFrom | middleware-api/python_agent/agent_graph.py:284 | the search returns the leftmost occurrence at or after the position, or reports that none exists |
| Text.NatTextInjective | middleware-api/python_agent/agent_graph.py:292 | distinct numbers print as distinct decimal strings |
| AgentGraph.ApologyQuotes | middleware-api/python_agent/agent_graph.py:267 | the apology quotes the error text right after its first sentence |
| AgentGraph.AttemptHistory | middleware-api/python_agent/agent_graph.py:245-273 | in the `try` block and its handler alike, the history grows by one assistant turn carrying the response |
| AgentGraph.AttemptAnswers | middleware-api/python_agent/agent_graph.py:245-264 | on an answer whose blocks parse, the response is the reply without action blocks and the actions are those of the reply |
| AgentGraph.AttemptApologises | middleware-api/python_agent/agent_graph.py:266-273 | a raising model, or a block that decodes to a non-dict, gives the apology with that error and no actions |
| AgentGraph.GenerateRaises | middleware-api/python_agent/agent_graph.py:71-273 | `generate_response` raises exactly when building the digest raises; otherwise it is the `try` block on the digest's prompt |
| AgentGraph.GenerateHistory | middleware-api/python_agent/agent_graph.py:258-270 | on either outcome the history is the old one plus one assistant turn; the earlier turns are unchanged |
| AgentGraph.Try | middleware-api/python_agent/agent_graph.py:236-273 | the `try` block run step by step computes its update |
| AgentGraph.GenerateResponse | middleware-api/python_agent/agent_graph.py:66-273 | the node run step by step computes its outcome |
| AgentGraph.ThreadId | middleware-api/python_agent/agent_graph.py:365 | the thread is the supplied id when it is non-empty, else "thread-" + user id |
| AgentGraph.InitialContext | middleware-api/python_agent/agent_graph.py:368-370 | the context starts as `{"name": user_name}` and is updated with a truthy supplied context, whose keys all pass through; without one it is exactly `{"name": user_name}` |
| AgentGraph.InvokeContext | middleware-api/python_agent/agent_graph.py:368-370 | a supplied "name" wins over the user name; the other six context keys, when supplied, reach the agent unchanged |
| AgentGraph.InvokeFails | middleware-api/python_agent/agent_graph.py:363-392 | `invoke_agent` raises exactly when the digest of its context does, with the message prefixed by "Error invoking agent: " |
| AgentGraph.ResultDictFields | middleware-api/python_agent/agent_graph.py:383-389 | the result has the five keys: the response, the actions as dicts, the user id, the thread and the context |
| AgentGraph.InvokeEchoes | middleware-api/python_agent/agent_graph.py:363-389 | a successful result is that dict for the update of `generate_response` on the normalised context, with the user id and thread |
| AgentGraph.InvokeAgent | middleware-api/python_agent/agent_graph.py:349-392 | `invoke_agent` run step by step, with its in-place `.update`, computes its result or error |
| RunAgent.ParseArgs | middleware-api/python_agent/run_agent.py:27-31 | `argv[i]` is used when `len(argv) > i`, else "unknown", "Doctor", "Hello", None and "{}" |
| RunAgent.NoArguments | middleware-api/python_agent/run_agent.py:27-31 | without arguments every field takes its default |
| RunAgent.ExtraArgumentsIgnored | middleware-api/python_agent/run_agent.py:27-31 | arguments after the fifth make no difference |
| RunAgent.FirstNoLen | middleware-api/python_agent/run_agent.py:39-43 | there is no section without a `len` exactly when every listed section, defaulted to `[]`, has one; otherwise the value found is the first without one |
| RunAgent.InvalidContextContinues | middleware-api/python_agent/run_agent.py:34-47 | context text that is no JSON lets the agent run as if no context were supplied |
| RunAgent.NonObjectContextFails | middleware-api/python_agent/run_agent.py:34-44 | JSON that is no object prints the error envelope and exits 1, without the agent being called |
| RunAgent.UnmeasurableContextFails | middleware-api/python_agent/run_agent.py:39-43 | a patients, appointments, prescriptions, records or labTests value that is a number, boolean or null exits 1 |
| RunAgent.ErrorEnvelope | middleware-api/python_agent/run_agent.py:70-73 | the envelope has exactly success = false and an error starting with "Error invoking agent: " |
| RunAgent.ExitPaths | middleware-api/python_agent/run_agent.py:50-75 | exit code 0 exactly when the context is usable and the agent succeeds, printing its result; otherwise exit code 1 with the envelope; the two paths are exclusive |
| RunAgent.DoubledPrefix | middleware-api/python_agent/run_agent.py:62-75 | a failure inside the agent prints "Error invoking agent: Error invoking agent: " before the message |
| RunAgent.EmptyThreadArgument | middleware-api/python_agent/run_agent.py:30 | an empty thread-id argument passes through as "", and the result names the thread "thread-" + user id |
| RunAgent.RunMain | middleware-api/python_agent/run_agent.py:24-75 | `main` run step by step computes what it prints and its exit code |

## Left out

- The Gemini client construction and `llm.invoke` (agent_graph.py lines 238-249) are a network call. The model is a function in `Env`. `response.content` is taken to be a string.
- Environment variables, `dotenv` and `float(LLM_TEMPERATURE)` are configuration and floating point.
- The LangGraph `StateGraph` build, compile and module singleton (lines 316-343) become plain composition: normalise, then generate. The real graph may drop the "actions" key, which `AgentState` does not declare. The model does not capture that; it passes the actions through.
- `json.loads` and `json.dumps` are not modelled as a grammar. Parsing is a function in `Env`. Printing is the JSON value put on stdout.
- JSON numbers are integers only. Floats are not modelled.
- Python's `str()` of lists and dicts depends on dict key order. It comes from `Env`.
- The message of a runtime exception (`str(e)`) comes from `Env`. The model records which fault is raised, not its text.
- A truthy section value that is not a list (a string, number, boolean or dict) raises in Python in several ways, depending on the type. All of them are modelled as one fault, `NotAList`.
- SystemPrompt: the model covers the opening, the workload and statistics headings, the statistic labels, the five section headings and the action-format block, in source order. It leaves out the mis-encoded emoji in front of the headings and the fixed instructions of the template (lines 196-234): the supported actions, the example and the rules. That text is fixed and holds no digest part.
- The stderr debug prints in both files, and `traceback.print_exc`, are output only. `len()` in the debug lines is modelled only for whether it raises.
- `sys.exit(0)` raises `SystemExit`, which `except Exception` does not catch. The model takes exit code 0 directly.
- LangGraph's thread configuration and conversation memory are not modelled. The thread id appears only in the result.
- models.py holds pydantic field declarations with no behaviour.
- test_llm.py and list_models.py are network smoke-test scripts.
- fix_function_name.py is a one-off rewrite of a hard-coded file.
