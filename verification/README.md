# Travel-itinerary agent and its AWS deployment, modelled in Dafny

This project models the decision logic of a small travel-planning system:

- **The planner agent.** A two-node LangGraph workflow: `input_interest`, then `create_itinerary`. It works on a `PlannerState` record and uses two mock tools, which format attraction and weather data.
- **The itinerary server.** A FastAPI endpoint, `generate_itinerary`. It runs the graph, picks the assistant's answer out of the final state, and removes `<thinking>` sections from it.
- **The Streamlit chat front end.** The model covers which argv entries reach argparse, the newline-to-`<br>` step, how the reply is chosen, and the conversation reset.
- **The deploy script.** It creates or updates a container Lambda function, waits for it to settle, and optionally puts an API Gateway HTTP API in front of it. The gateway setup has seven find-or-create steps: API, API key, integration, routes, invoke permission, stage and usage plan.

The remote services are modelled by an abstract control plane (`ControlPlane.Plane`):

- functions by name;
- APIs, API keys and usage plans as ordered listings;
- integrations and route-key sets per API;
- stages;
- resource-policy statements per function.

Every mutating request is recorded as a `Call`. What the services answer comes from oracle values:

- which calls fail;
- the ids and the key value they hand out;
- the status each poll observes.

Loops take these as histories indexed by attempt number, so the retry and polling loops are verified against every possible history.

Modules, one per file:

- `Options`, `Seqs`, `Text`: the Python string and sequence operations the source uses. These are `strip`, `split`, `join`, `replace`, `in`, `lower`, slicing, `str(int)`, a forward scan for the first match, and a backward scan for the last.
- `Planner`: the planner nodes, the workflow, and the server's one-time graph construction.
- `Tools`: the two mock tools.
- `ItineraryReply`: the server endpoint.
- `Chatbot`: the front end.
- `ControlPlane`, `Gateway`, `LambdaDeploy`, `ImageUri`: the deploy script.

## Model

| member | source | states |
|---|---|---|
| `Seqs.FirstIndex` | deploy.py:257-261 | the scan-and-break search returns a position whose element matches with no earlier match, and returns nothing exactly when no element matches |
| `Seqs.LastIndex` | 3_deploy_langGraph_agent/server.py:220-232 | the `reversed(...)` search returns the last matching position, and returns nothing exactly when none matches |
| `Seqs.FirstIndexAppend` | deploy.py:257-261 | appending to a listing keeps an existing first match; a new element is the first match only when nothing matched before |
| `Seqs.FirstIndexSame` | deploy.py:438-442 | the first match depends only on which positions match, so changing a plan's associations does not move its lookup |
| `Text.Strip` | deploy.py:79 | `strip()` drops only whitespace, from both ends, and leaves neither end whitespace |
| `Text.StripIdempotent` | 3_deploy_langGraph_agent/server.py:269 | stripping an already stripped answer changes nothing |
| `Text.StripKeepsFree` | 3_deploy_langGraph_agent/server.py:252 | stripping cannot create an occurrence of a tag |
| `Text.SplitPieces` | 3_deploy_langGraph_agent/server.py:261-262 | `s.split(sep)` has more than one piece exactly when `sep in s`, and is `[s]` otherwise |
| `Text.JoinSplit` | chatbot.py:176-179 | joining the pieces of a split with the separator gives back the original text, which is what makes `replace` equal to split-then-join |
| `Text.SplitLastFree` | 3_deploy_langGraph_agent/server.py:252 | `split(sep)[-1]` contains no `sep` |
| `Text.SplitLastSuffix` | 3_deploy_langGraph_agent/server.py:263 | `split(sep)[-1]` is a suffix of the text |
| `Text.SplitLastAfterSep` | 3_deploy_langGraph_agent/server.py:259-263 | when `sep` occurs, the text before the last piece ends with `sep`, so the last piece is what follows the last separator |
| `Text.LastPieceAfterSep` | deploy.py:78-79 | the last piece of `(x + "\n" + u).split("\n")` is `u` when `u` has no newline |
| `Text.Truncate` | 3_build_and_deploy_agent.py:110 | `s[:n]` keeps the first `min(len(s), n)` characters |
| `Text.Lower` | 3_build_and_deploy_agent.py:101 | `lower()` maps each character on its own and keeps the length |
| `Text.DecimalRoundTrip` | 3_build_and_deploy_agent.py:109-110 | the decimal text of a number reads back as that number |
| `Planner.InputInterest` | 3_build_and_deploy_agent.py:212-223 | `messages` becomes `[]` only when missing or empty; every other field is unchanged |
| `Planner.InputInterestIdempotent` | 3_deploy_langGraph_agent/server.py:152-155 | running the input node twice is the same as once |
| `Planner.CreateItinerary` | 3_build_and_deploy_agent.py:225-270 | succeeds exactly when the question is present and the agent returned or `messages` exists; appends exactly the question and the answer; sets `itinerary` to the agent's `output` or `str(result)`, or to the error prefix plus the error, in which case the appended AI message has the same text; leaves other fields alone |
| `Planner.RunGraph` | 3_build_and_deploy_agent.py:273-280 | the compiled graph visits `input_user_interests`, then `create_itinerary`, then ends, and its result is the itinerary node applied to the input node's output |
| `Planner.RunAddsOneExchange` | 3_deploy_langGraph_agent/server.py:157-176 | with a question in the input, a run always completes and adds exactly one question and one answer |
| `Planner.InitializeResources` | 3_deploy_langGraph_agent/server.py:37-74 | a cached graph is returned unchanged without a build; otherwise a build that raises yields no graph and caches nothing, and one that succeeds happens once and is cached |
| `Planner.BuiltOnce` | 3_deploy_langGraph_agent/server.py:199-202 | however many requests a fresh process serves, at most one build succeeds; a request gets no graph exactly when every build up to its own raised; every request that gets a graph gets the one left cached |
| `Tools.AttractionLine` | 3_build_and_deploy_agent.py:110 | an attraction line starts with its number, title and `: `, and ends with `...\n` |
| `Tools.Listing` | 3_build_and_deploy_agent.py:109-110 | one line per attraction, in input order, with consecutive numbers |
| `Tools.SearchTouristAttractions` | 3_build_and_deploy_agent.py:93-112 | the file-missing message exactly when there is no data, the unknown-city message exactly when the lower-cased city is not a key, otherwise the header followed by the listing |
| `Tools.ListingNumbering` | 3_build_and_deploy_agent.py:108-110 | attraction `k` is announced as number `k+1`, with at most the first 150 characters of its description |
| `Tools.EpaName` | 3_build_and_deploy_agent.py:178-192 | indices 1 to 6 map to Good, Moderate, Unhealthy for sensitive groups, Unhealthy, Very Unhealthy and Hazardous; any other value gets no label |
| `Tools.ForecastSections` | 3_build_and_deploy_agent.py:152-192 | the ten fixed lines come first, in order; Precipitation, Cloud cover and Air Quality each appear exactly when `precip`, `cloudcover` and `air_quality` are keys of `current`, in that order, with the value, its unit and the EPA label in their texts |
| `Tools.GetWeatherForecast` | 3_build_and_deploy_agent.py:133-194 | file-missing and unknown-city messages, otherwise the forecast sections in the order `Tools.ForecastSections` states |
| `ItineraryReply.UserMessageOf` | 3_deploy_langGraph_agent/server.py:208-210 | `user_message` when non-empty; otherwise `question` if that key exists; otherwise `""` |
| `ItineraryReply.LastAiContent` | 3_deploy_langGraph_agent/server.py:218-232 | the content of the last message that is AI-typed by attribute, by dict `"type"` or by class `AIMessage`; nothing exactly when no message is |
| `ItineraryReply.AnswerContent` | 3_deploy_langGraph_agent/server.py:216-241 | the found AI content when it is truthy; when it is absent or falsy and an itinerary exists, the itinerary, as-is when a string, else its `str()`; without an itinerary, the found content, or `""` when there is none |
| `ItineraryReply.CutThinking` | 3_deploy_langGraph_agent/server.py:244-252 | a text part cut after the last `<thinking>` and after the last `</thinking>`, then stripped, contains neither tag and has no surrounding whitespace |
| `ItineraryReply.LastTextPartWins` | 3_deploy_langGraph_agent/server.py:244-252 | for list content the last text part decides; with no text part, the list's `str()` is used |
| `ItineraryReply.CutThinkingCases` | 3_deploy_langGraph_agent/server.py:244-252 | the kept text is the stripped part after the last `</thinking>` of the part after the last `<thinking>`; each part is a suffix free of its tag, preceded by the tag when the tag occurs and the whole text when it does not |
| `ItineraryReply.DropThinkingCases` | 3_deploy_langGraph_agent/server.py:259-263 | without `<thinking>` or without `</thinking>` the text is unchanged; with both, it becomes the stripped text after the last `</thinking>`, which holds no `</thinking>` |
| `ItineraryReply.DropThinkingIdempotent` | 3_deploy_langGraph_agent/server.py:259-263 | removing thinking sections twice is the same as once |
| `ItineraryReply.GenerateItinerary` | 3_deploy_langGraph_agent/server.py:266-271 | the reply has exactly two entries, `user` with the question and then `ai`, whose content has no surrounding whitespace |
| `ItineraryReply.ReplyDropsThinking` | 3_deploy_langGraph_agent/server.py:255-271 | when the answer held both tags, the returned ai content holds no `</thinking>` |
| `ItineraryReply.ReplyToPlannerRun` | 3_deploy_langGraph_agent/server.py:212-271 | for the state the graph produces from `{"user_message": q}`, whatever the agent did, the reply is `q` followed by the stored itinerary with thinking sections dropped and stripped |
| `Chatbot.KeptArgs` | chatbot.py:114-126 | with `"--"` in argv the list is exactly the suffix after the first `"--"`; with no argument after the script name it is empty |
| `Chatbot.KeptArgsWithoutDoubleDash` | chatbot.py:119-126 | without `"--"` only entries of `argv[1:]` are kept, as lone `=` forms or flag-value pairs; nothing is kept when no entry starts with `--api-server-url`; every `=` form of `argv[1:]` is kept, and every bare flag that has an entry after it is kept directly followed by that entry |
| `Chatbot.FlagKept` | chatbot.py:120-124 | in the list built from `argv[1:]` when there is no `"--"`, an `=` form of `argv[1:]` is an entry, and a bare flag with an entry after it sits directly before that entry |
| `Chatbot.FlagArgsWellGrouped` | chatbot.py:121-126 | the kept list is a series of `--api-server-url=V` tokens and `--api-server-url V` pairs; a trailing bare flag is dropped |
| `Chatbot.FlagArgsFromArgv` | chatbot.py:121-126 | every kept entry comes from argv at or after the scan's start |
| `Chatbot.ApiServerUrl` | chatbot.py:107-132 | the default URL when nothing is kept or parsing raises an ordinary exception; the URL argparse read when it parses a non-empty kept list; the app ends only when argparse exits on kept arguments |
| `Chatbot.NoFlagDefaultUrl` | chatbot.py:113-132 | without `"--"` and without any entry of `argv[1:]` starting with `--api-server-url`, the URL is the default whatever argparse would do |
| `Chatbot.NewlinesToBreaks` | chatbot.py:179 | replacing every newline by `<br>` leaves no newline |
| `Chatbot.ReplaceNewline` | chatbot.py:179 | `replace('\n', '<br>')` is the per-character newline substitution |
| `Chatbot.BreaksOfJoin` | chatbot.py:176-179 | replacing `\n\n` by `<br><br>` first does not change the final result of the single-newline replacement |
| `Chatbot.FormatBreaks` | chatbot.py:176-179 | the two replacements leave no newline and equal replacing each newline by `<br>` on its own |
| `Chatbot.AiEntries` | chatbot.py:209 | the filtered list holds only `ai` entries of the output, and is empty exactly when no entry is `ai` |
| `Chatbot.LastAiReplyIsLastAiEntry` | chatbot.py:206-211 | the shown reply is the content of the last `ai` entry, and there is none exactly when no entry is `ai` |
| `Chatbot.StreamResponse` | chatbot.py:183-249 | the question is always stored first; a reply is shown and stored as `assistant` exactly when the status is 200 and an `ai` entry exists, and it is the last `ai` entry; a 200 answer without one shows the no-response notice; otherwise only the question is stored; the thread id is kept and the session stops awaiting |
| `Chatbot.StartNewConversation` | chatbot.py:298-301 | messages are emptied and the thread id goes up by exactly one |
| `Chatbot.ResetButton` | chatbot.py:296-302 | the reset happens only when the button is offered (not awaiting) and clicked |
| `Chatbot.ResetsAdvanceThread` | chatbot.py:298-301 | after `n` resets the thread id has advanced by exactly `n` |
| `ControlPlane.LookupApi` | deploy.py:255-261 | the id of the first API with the wanted name; nothing exactly when no API has it |
| `ControlPlane.LookupKey` | deploy.py:291-296 | the id of the first key named `{api_name}-key`; nothing exactly when none is |
| `ControlPlane.LookupIntegration` | deploy.py:317-322 | the first integration whose `IntegrationUri` is the function ARN; nothing exactly when none is |
| `ControlPlane.LookupPlan` | deploy.py:437-442 | the first usage plan named `{api_name}-usage-plan`; nothing exactly when none is |
| `ControlPlane.LookupApiAppend` | deploy.py:266-279 | creating an API of the wanted name when none existed makes it the one found next time |
| `ControlPlane.LookupKeyAppend` | deploy.py:298-306 | creating the key when none existed makes it the one found next time |
| `ControlPlane.LookupIntegrationAppend` | deploy.py:324-334 | creating the integration when none existed makes it the one found next time |
| `ControlPlane.LookupPlanAppend` | deploy.py:446-459 | creating the plan when none existed makes it the one found next time |
| `ControlPlane.LookupPlanUpdate` | deploy.py:462-489 | attaching a stage or key to a plan does not change which plan is found |
| `Gateway.ApiNameOf` | deploy.py:238-239 | the given name, even an empty one, or `{function_name}-api` when the argument is `None` |
| `Gateway.EnsureApi` | deploy.py:250-283 | reuses the first API of the name; a failed listing is only logged and leads to a create; creates only when nothing is found, and fails exactly when that create fails |
| `Gateway.EnsureApiKey` | deploy.py:285-310 | a listing failure is fatal; a found key is reused with no value surfaced; otherwise one create with a fresh value, whose value is surfaced only then |
| `Gateway.EnsureIntegration` | deploy.py:312-338 | a listing failure is fatal; an integration with `IntegrationUri == function_arn` is reused; otherwise one create, fatal if refused |
| `Gateway.AddedRoutes` | deploy.py:341-367 | a route key is added exactly when its own listing and create requests succeed and the API lacks it |
| `Gateway.EnsureRoutes` | deploy.py:341-367 | only the routes of this API change, becoming the old set plus the added keys; the requests are those of the loop |
| `Gateway.RouteCallsForUnseen` | deploy.py:343-364 | `create_route` is issued for exactly those of the four keys the listing did not show, with the integration as target |
| `Gateway.RoutesOnlyGrow` | deploy.py:341-367 | existing routes are never removed and no other API's routes change |
| `Gateway.FaultlessRoutes` | deploy.py:341-367 | with no route request failing, the API ends up with all four keys |
| `Gateway.RouteFailuresIsolated` | deploy.py:365-367 | a failure on one route key does not stop another key whose own requests succeed |
| `Gateway.EnsurePermission` | deploy.py:369-407 | no account id or an unexpected policy-read error is fatal; an existing statement with principal `apigateway.amazonaws.com` and a SourceArn containing `:{api_id}/` is reused with no request; a missing or unparsable policy leads to one `add_permission`, fatal if refused; a readable policy without such a statement is fatal with no request |
| `Gateway.EnsurePermissionIntended` | deploy.py:389-404 | as the step evidently intends: any policy without a granting statement leads to one `add_permission`, fatal only if refused |
| `Gateway.PermissionDiverges` | deploy.py:389-395 | the written and the intended step agree everywhere except on a readable policy without a grant, where the written one fails and the intended one adds the permission |
| `Gateway.ForeignPolicyExample` | deploy.py:380-395 | a function whose only policy statement lets EventBridge invoke it fails the written step and gets the permission from the intended one |
| `Gateway.IntendedPermissionProvisions` | deploy.py:378-404 | after a faultless intended step the policy grants the API, whatever it held before |
| `Gateway.AddedStatementGrants` | deploy.py:376-403 | the statement the step adds is recognised by the next run's check |
| `Gateway.EnsureStage` | deploy.py:409-429 | the stage is created only when `get_stage` reports it missing; any other `get_stage` error and a refused create are fatal |
| `Gateway.NewPlan` | deploy.py:447-458 | a new usage plan has the derived name, a quota of 1000 per MONTH, burst 10 and rate 5 |
| `Gateway.AttachPlan` | deploy.py:462-489 | the plan gains the `{api_id}:{stage}` stage and the key unless those requests fail; an already attached key stays attached; nothing else changes |
| `Gateway.EnsureUsagePlan` | deploy.py:431-493 | a failed listing is only logged and leads to a create; only the plan's creation can fail the step; the associations are attempted either way |
| `Gateway.Finish` | deploy.py:369-513 | steps 5 to 7 succeed exactly when none of their fatal faults occurs, a readable policy without a grant counting as one, and then report the URL and the key value carried in |
| `Gateway.StageAndPlan` | deploy.py:409-513 | steps 6 and 7 succeed exactly when the stage can be read and exists or is created, and the plan is found or created; association failures never matter; the policies are untouched |
| `Gateway.AfterKey` | deploy.py:312-513 | steps 3 to 7 succeed exactly when the integration can be read and reused or created and the later steps succeed |
| `Gateway.AfterApi` | deploy.py:285-513 | steps 2 to 7 succeed exactly when their fatal faults are absent; a key value is reported exactly when no key of the name existed |
| `Gateway.DeployApiGateway` | deploy.py:224-517 | success exactly when no fatal fault occurs, a readable policy without a grant for the chosen API counting as one; on success the URL is `https://{api_id}.execute-api.{region}.amazonaws.com/{stage}` for the API found or created, that API is in the plane, and a key value is shown exactly when no key of the derived name existed before; functions are untouched |
| `Gateway.ToleratedFaults` | deploy.py:354-367 | route-request failures and failed usage-plan associations never change the result |
| `Gateway.PermissionProvisions` | deploy.py:378-404 | when the function has no policy or its policy already grants the API, a faultless permission step succeeds and the policy grants the API |
| `Gateway.UsagePlanProvisions` | deploy.py:431-489 | after a faultless usage-plan step, the first plan of the name holds the stage and the key |
| `Gateway.FinishProvisions` | deploy.py:369-493 | when the function has no policy or already grants the API, faultless steps 5 to 7 succeed and leave the permission, the stage and the plan associations in place |
| `Gateway.AfterKeyProvisions` | deploy.py:312-493 | under the same policy condition, faultless steps 3 to 7 also leave the integration and all four routes in place |
| `Gateway.FaultlessRunProvisions` | deploy.py:224-513 | a run in which nothing fails, on a plane where the function has no policy or already grants the API the run settles on, succeeds and leaves everything the deployment needs in place |
| `Gateway.ForeignPolicyFails` | deploy.py:369-407 | a run in which nothing fails, on a plane where the function has a policy that does not grant the API the run settles on, returns False |
| `Gateway.FinishRerun` | deploy.py:369-493 | on a plane where steps 5 to 7 are already in place, they change nothing |
| `Gateway.AfterKeyRerun` | deploy.py:312-493 | on a plane where steps 3 to 7 are already in place, they change nothing |
| `Gateway.RerunChangesNothing` | deploy.py:224-513 | a faultless run on a fully provisioned plane succeeds with the existing API's URL, changes nothing and shows no key value |
| `Gateway.DeployTwice` | deploy.py:224-513 | deploying twice without faults, starting where the function has no policy or already grants the API: both runs succeed, the second run leaves the plane as it was, reports the same URL and shows no key value |
| `LambdaDeploy.WaitForUpdateCompletion` | deploy.py:12-47 | at most 30 polls; true exactly when some poll within 30 shows a complete status (absent, empty or `Successful`) with no earlier `Failed` or complete one; `Failed` stops at once; a raised poll uses up an attempt |
| `LambdaDeploy.RetryOnConflict` | deploy.py:137-153 | at most 5 attempts, as many as `LambdaDeploy.AttemptsMade` counts; each conflict before the last waits `2^attempt` seconds; applied exactly when an attempt is accepted after conflicts only; a conflict on the fifth attempt, or any other error, escapes |
| `LambdaDeploy.AttemptsMadeIs` | deploy.py:137-153 | a request count that stops at the first request that is not a conflict, or at the fifth, is the one `LambdaDeploy.AttemptsMade` gives, and the loop succeeds exactly when that last request is accepted |
| `LambdaDeploy.WaitForActive` | deploy.py:190-216 | at most 10 polls, stopping at the first `Active`; `Active` is reached exactly when some poll within 10 shows it after non-Active states only; a raised poll ends the wait |
| `LambdaDeploy.DeployedFunction` | deploy.py:160-188 | an existing function gets the image, timeout and memory and keeps its role and ARN; a new one gets everything from the configuration |
| `LambdaDeploy.UpdateExisting` | deploy.py:133-173 | the requests are the code updates the retry loop makes, then, only if one was accepted, the configuration updates its own retry loop makes; success exactly when both loops succeed; a failed code update leaves the function as it was, a failed configuration update leaves it with the new image only |
| `LambdaDeploy.DeployLambdaContainer` | deploy.py:102-222 | a lookup error returns False; a missing function gets exactly one `create_function`; an existing one exactly the code updates its retry loop makes followed, when the code update went through, by the configuration updates its retry loop makes, whatever the wait reported; the role is never changed; success exactly when that phase succeeds, Active is reached and, if requested, the gateway succeeds on the ready plane |
| `ImageUri.LastLine` | deploy.py:78-79 | the candidate URI is stripped and contains no newline |
| `ImageUri.ImageUriFromOutput` | deploy.py:78-91 | a URI is returned exactly when the stripped last line starts with `https://` or contains `.dkr.ecr.` or `.amazonaws.com/`, and it is that line |
| `ImageUri.AcceptedUriIsOneLine` | deploy.py:78-91 | an accepted URI is a single non-empty line with no surrounding whitespace |
| `ImageUri.LastLineRoundTrip` | deploy.py:78-91 | whatever the script prints before it, a clean URI on the last line is exactly what is returned |

## Left out

- boto3, STS and the AWS services themselves. They are replaced by the abstract plane and oracle values. Ids the services issue are modelled as non-empty strings. The plane addresses a usage plan by its listing position, not by id, so plan ids are assumed unique.
- The HTTP API's CORS settings, the integration's payload version and timeout, the usage plan's description, `Publish=True` and the `enabled` flag of the key. They are sent but never read back.
- `time.sleep`, the random jitter added to the back-off (deploy.py:149, 172) and the timestamp in the permission's `StatementId`. Time is not modelled; `RetryOnConflict` returns the base delays.
- Printing and logging, including the printed failure reasons, the `curl` hints and the `/docs` URL.
- `build_and_push_container` beyond lines 78-91: the script check, the subprocess, and its error handling. The script's output is the input of `ImageUri.ImageUriFromOutput`.
- The deploy script's `main` and its argparse options.
- Pagination of the AWS listings. `get_apis`, `get_integrations`, `get_routes`, `get_usage_plans` and `get_api_keys` are read one page at a time (deploy.py:256, 291, 317, 348, 437), and the plane's listings are taken as that page being complete. `Gateway.DeployTwice`, `Gateway.RerunChangesNothing` and the key-reuse facts rely on this; with more entries than one page holds, the script can create duplicates that the model does not show.
- A policy statement whose `Principal` is a plain string rather than a map: `.get` would raise on it. Statements are modelled with an optional service.
- The LLM, Bedrock, `create_react_agent` and LangGraph internals. The agent's outcome is a parameter: its `output`, its `str()`, or the message of what it raised. LangGraph's state merging is taken to be "the node's returned dict is the new state".
- FastAPI, Mangum, uvicorn and the Lambda `handler`, and the server's `root` endpoint.
- Request bodies whose `user_message` or `question` is not a string (JSON `null`, numbers, booleans). `ItineraryReply.UserMessageOf` takes a map from strings to strings, so only the empty string is falsy there.
- Reading the JSON data files. The tools take the parsed data; `None` stands for a missing file.
- The tools' `except Exception` fallbacks (3_build_and_deploy_agent.py:114-115, 196-197). The modelled records always carry the fields the tools read.
- `str()` of values that are not strings: the agent's result, a non-string itinerary, a content list. It is supplied as a given string.
- Text.Lower: does not model Unicode case mapping beyond ASCII, because Python's full table is far larger than this use of it needs.
- The regular-expression cleanups of `format_message` (chatbot.py:157-173). They use backreferences, word boundaries and case-insensitive matching.
- Streamlit rendering, CSS, `safe_rerun`, the session timestamps and the HTTP request in `stream_response`; the response is an input.
- Gateway.FaultlessRunProvisions: no longer promises success on every plane. A faultless run fails when the function already has a policy that does not grant the chosen API, as `Gateway.ForeignPolicyFails` states; `Gateway.PermissionProvisions`, `Gateway.FinishProvisions`, `Gateway.AfterKeyProvisions` and `Gateway.DeployTwice` carry the same policy condition.
- argparse itself. How `parse_args` ends for the kept list is an input of `Chatbot.ApiServerUrl`.
- Planner.RunGraph: models only the graph's fixed path, not LangGraph's general scheduler, because the workflow is linear.

## Findings

| source | as written | input that shows it | evidently intended | confidence | as-written member | corrected member |
|---|---|---|---|---|---|---|
| deploy.py:389-395 | the missing-grant branch raises the client's `ResourceNotFoundException` built from a message alone; its constructor takes an error response and an operation name, so the call raises `TypeError`, which the handler on line 395 does not list, and step 5 returns False | a function whose policy parses but has no statement granting this API, such as one whose only statement lets `events.amazonaws.com` invoke it | the raise reaches the handler and `add_permission` grants API Gateway access | medium, not executed; rests on botocore's constructor signature | `Gateway.EnsurePermission` with `Gateway.ForeignPolicyExample`, `Gateway.ForeignPolicyFails` | `Gateway.EnsurePermissionIntended` with `Gateway.IntendedPermissionProvisions`, `Gateway.PermissionDiverges` |

The deployment chain (`Gateway.Finish` up to `Gateway.DeployApiGateway` and `LambdaDeploy.DeployLambdaContainer`) uses the step as written, so that its verdicts are those of the script; the intended step is stated beside it.
