# chatter_plotter: the prompt → SQL → rows → summary pipeline

This project models the backend core of chatter_plotter. A user types a question
about shopping-centre foot traffic. The backend asks a chat-completion service to turn
it into an SQLite query. It then runs that query and asks the service again to
summarise the first rows. The model covers:

- `wrappers.dfy`: `Option` and `Result`.
- `js_values.dfy`: the JavaScript values the pipeline handles. This covers what
  `JSON.parse` yields, reading a property of such a value, `String.prototype.trim`,
  and how a possibly-undefined string renders inside a template literal.
- `azure_client.dfy`: `src/utils/azureCient.js`.
  - `extractContent` is modelled as the leftmost match of `/```(?:\w+\n)?([\s\S]*?)```/`.
  - `createChatCompletion` is modelled in full: the model write-back, the routing to
    the "gpt-4" or "gpt-4-t" deployment, accumulation of the streamed deltas, the
    `onStream` callback, fence stripping for "gpt-4-t", `JSON.parse`, and the single
    re-issue when parsing fails and `retry` is on.
  - A null delta is handed to `process.stdout.write` before anything else, and Node's
    `write` throws on `null`. So the first null delta ends the provider call with
    "listChatCompletions failed", and only the deltas before it reach the text and `onStream`.
  - The completion service is a `Provider` object. It logs every request it receives,
    and an oracle chooses its answer by call number. `Completion` is the
    specification function the imperative `CreateChatCompletion` is proved against.
- `plot_agent.dfy`: `src/utils/plot-agent.js`. It holds the two prompt builders,
  with their literal texts, and `plot` and `chat` with their default temperature
  (0.1) and model ("gpt-4-1106-preview").
- `app.dfy`: the database routes of `src/app.js`.
  - `/plot`: the plan, `db.all(plan.query, plan.params)`, `rows.splice(0, 20)`, `chat`,
    and each route's error texts.
  - `/get-center-data` and `/foot-traffic-trend/:centerId`: the query and parameters
    each one sends.
  - The SQLite handle is a `Store` object. It logs each `db.all` call, and an oracle
    gives its reply.
  - `PlotHandler` is the specification of the `/plot` route. It gives the response
    together with the ordered lists of completion prompts and store calls.

`plot` and `chat` call `createChatCompletion(messages, true, options)` without a fourth
argument, so `retry` is `false` on the whole pipeline. A failed parse there throws at
once. The re-issue path stays in the model of `createChatCompletion` (`Completion`,
`Reissue`) and is proved bounded at two provider calls. The pipeline lemmas
(`PipelineCallOutcome`, `PlotHandler`) follow the code: one provider call per stage,
no retry.

## Model

| member | source | states |
|---|---|---|
| JsValues.LookupMember | src/app.js:186 | A key that is absent gives undefined, and only then. A key that is present gives the value of its last binding, as `JSON.parse` keeps it. |
| JsValues.Property | src/app.js:186 | `plan.query` and `plan.params` are defined only when the plan is an object. Non-null is required, because reading a property of null throws. |
| JsValues.Render | src/utils/plot-agent.js:72-94 | A defined prompt is interpolated verbatim. |
| JsValues.Trim | src/utils/azureCient.js:11 | `trim()` leaves no ECMAScript whitespace at either end. |
| JsValues.TrimIsInnerSlice | src/utils/azureCient.js:11 | `trim()` returns a contiguous slice of its input. Everything dropped before and after it is whitespace. |
| JsValues.TrimSkipsLeadingWhitespace | src/utils/azureCient.js:11 | Whitespace in front of a string does not change the trimmed result. |
| JsValues.TrimIdempotent | src/utils/azureCient.js:11 | Trimming twice equals trimming once. |
| AzureClient.FindFence | src/utils/azureCient.js:6-9 | It returns the first "```" at or after a position, or proves that there is none. |
| AzureClient.GroupStart | src/utils/azureCient.js:6 | The capture starts right after the opening fence. If a word-character tag followed by a newline comes first, it starts after that tag. Only the greedy maximal tag counts. |
| AzureClient.ExtractContent | src/utils/azureCient.js:4-15 | Defines `extractContent` as the leftmost regex match: the trimmed capture, or the input when there is no match or the capture is empty. |
| AzureClient.ExtractedIsFencedText | src/utils/azureCient.js:9-14 | For every input, the result is the input itself, or the trimmed text of a non-empty capture: it starts where the group starts after the leftmost fence and its optional tag, and ends at the first closing fence after that. |
| AzureClient.ExtractsLeftmostBlock | src/utils/azureCient.js:6-11 | With a leftmost opening fence, its tag and the first closing fence after non-empty content, the result is that content trimmed. |
| AzureClient.ExtractsBody | src/utils/azureCient.js:6-11 | The same, for a content that is known by value. |
| AzureClient.EmptyBlockUnchanged | src/utils/azureCient.js:10-14 | An empty first block makes `match[1]` falsy, so the input comes back unchanged. |
| AzureClient.UnclosedBlockUnchanged | src/utils/azureCient.js:9-14 | An opening fence with no closing fence leaves the input unchanged. |
| AzureClient.NoFencePairUnchanged | src/utils/azureCient.js:9-14 | Without two non-overlapping fences the input comes back unchanged. |
| AzureClient.WrappedBlockFences | src/utils/azureCient.js:6 | In prose, then a fenced block, then more text, the opening fence, the tag end and the closing fence lie where the regex finds them. |
| AzureClient.ExtractsTaggedBlock | src/utils/azureCient.js:6-11 | A block with a language tag yields its body trimmed. The tag is never part of the result. |
| AzureClient.ExtractsUntaggedBlock | src/utils/azureCient.js:6-11 | A block without a tag yields its body trimmed. |
| AzureClient.ExtractsWrappedBlock | src/utils/azureCient.js:4-15 | `extractContent(pre + "```" + lang + "\n" + body + "```" + post) == trim(body)` when pre and body hold no backtick, lang is word characters only, and the body is not empty if there is a tag. A tag with an empty body gives an empty capture, so the input comes back unchanged (`EmptyBlockUnchanged`). |
| AzureClient.ResolveModel | src/utils/azureCient.js:40 | `options.model \|\| "gpt-4"` is never empty. |
| AzureClient.DeploymentFor | src/utils/azureCient.js:42 | Defines the deployment: "gpt-4" for the model "gpt-4", and "gpt-4-t" for every other model. Its properties are stated by `Routing`. |
| AzureClient.ShouldClean | src/utils/azureCient.js:43 | Defines cleaning: only the "gpt-4-t" deployment is cleaned. |
| AzureClient.Routing | src/utils/azureCient.js:40-43 | The deployment is "gpt-4" exactly when the model is missing, empty or "gpt-4". Otherwise it is "gpt-4-t". Only "gpt-4-t" is cleaned. Resolving twice changes nothing. |
| AzureClient.DeltaText | src/utils/azureCient.js:71 | Defines the text a delta adds: its content. A null delta never gets this far. |
| AzureClient.FirstNull | src/utils/azureCient.js:68-70 | The position of the first null delta: every delta before it is non-null, and the delta there is null. |
| AzureClient.UntilNull | src/utils/azureCient.js:68-75 | The deltas handled before `process.stdout.write(null)` throws: a null-free prefix that stops exactly at the first null. |
| AzureClient.UntilNullAppend | src/utils/azureCient.js:66-83 | For a stream read in two parts, the second part counts only when the first part holds no null delta. |
| AzureClient.NullCutsChoices | src/utils/azureCient.js:67-77 | A null choice ends the handling of its event's choices at that point. |
| AzureClient.NullCutsStream | src/utils/azureCient.js:66-83 | A null delta in an event ends the handling of the whole stream within that event. |
| AzureClient.ChoiceDeltas | src/utils/azureCient.js:67-69 | The deltas that pass `delta !== undefined`: none is undefined, and there are at most as many as choices. |
| AzureClient.StreamDeltas | src/utils/azureCient.js:66-78 | The deltas of all events that pass `delta !== undefined`: none is undefined. |
| AzureClient.ChoiceDeltasAppend | src/utils/azureCient.js:67-77 | The deltas of consecutive choices come in choice order. |
| AzureClient.StreamDeltasAppend | src/utils/azureCient.js:66-78 | The deltas of consecutive events come in event order. |
| AzureClient.Concat | src/utils/azureCient.js:71 | Defines `responseString`: the deltas' texts, in order. |
| AzureClient.ConcatAppend | src/utils/azureCient.js:71 | `responseString +=` builds the concatenation of the parts in order. |
| AzureClient.StreamTextInEventOrder | src/utils/azureCient.js:66-78 | The response text is the first event's text followed by the rest of the stream's text. |
| AzureClient.Collect | src/utils/azureCient.js:60-83 | One provider call forwards no null delta. A successful call's text is the concatenation of exactly the deltas it forwarded. A null delta, a failed call and a broken stream all give the error that the `catch` reports. |
| AzureClient.Cleaned | src/utils/azureCient.js:89-92 | Defines cleaning: `extractContent` on "gpt-4-t", and the identity elsewhere. |
| AzureClient.Completion | src/utils/azureCient.js:32-124 | A completion makes one or two provider calls. With retry off it makes exactly one. |
| AzureClient.AfterText | src/utils/azureCient.js:92-123 | Once the cleaned text is in, at most one more provider call follows. It follows exactly when parsing is on, the parse failed and retry is on. |
| AzureClient.SecondCallOnlyOnParseFailure | src/utils/azureCient.js:93-119 | A second call happens if and only if retry is on, parsing is requested, the stream succeeded and the cleaned text does not parse. |
| AzureClient.ProviderFailureIsFinal | src/utils/azureCient.js:79-83 | A failed call or broken stream throws after one call, with the message "listChatCompletions failed: " followed by the stringified error. It forwards only the deltas read before the failure. |
| AzureClient.NullDeltaFails | src/utils/azureCient.js:68-83 | A stream with a null delta throws after one call, with the message "listChatCompletions failed: " followed by the stringified stream error. It forwards only the null-free prefix, and no cleaning, parsing or retry happens. |
| AzureClient.NullAfterContentThrows | src/utils/azureCient.js:68-83 | A content choice followed by a null choice throws instead of returning `content + "null"`. Only the content was forwarded. |
| AzureClient.TextResultIgnoresParse | src/utils/azureCient.js:89-123 | Without `jsonParse` the result is the cleaned concatenation of the forwarded deltas, whatever the parser. |
| AzureClient.CompletionError.ErrorMessage | src/utils/azureCient.js:79-102 | The two thrown texts: "listChatCompletions failed: " before the stringified error, and "Error parsing JSON response: " before the parse error's message. `ProviderFailureIsFinal`, `NullDeltaFails` and `ParseOutcome` state which text each failure carries. |
| AzureClient.ParseOutcome | src/utils/azureCient.js:93-119 | A text that parses is returned parsed. A parse failure throws with the message "Error parsing JSON response: " followed by the parse error's message when retry is off, and returns the re-issue's outcome when retry is on. |
| AzureClient.Options.Default | src/utils/azureCient.js:35 | The omitted options are `{ temperature: 0.2, model: "gpt-4" }`. |
| AzureClient.TokenSink.Accept | src/utils/azureCient.js:73-75 | `onStream(delta)` records the delta after the earlier ones. |
| AzureClient.Provider.StreamChatCompletions | src/utils/azureCient.js:61-64 | One call sends the deployment, the messages and the temperature, and gets the answer for its call number. |
| AzureClient.ReadChoices | src/utils/azureCient.js:67-77 | The inner loop reports a throw exactly when a choice's delta is null. It adds the text of the defined deltas before the first null, and hands exactly those deltas to `onStream`, in order. |
| AzureClient.ReadStream | src/utils/azureCient.js:66-78 | The stream loop reports a throw exactly when the stream holds a null delta. It builds `responseString` from the defined deltas before the first null, and hands exactly those deltas to `onStream`, in order. |
| AzureClient.StreamResponse | src/utils/azureCient.js:59-83 | The `try` block makes one provider call. It yields the accumulated text, or an error: the null-write error when a delta is null, otherwise the error that ended the call or the stream. This equals `Collect`. |
| AzureClient.CreateChatCompletion | src/utils/azureCient.js:32-124 | The result equals `Completion`. The resolved model is written back into `options`. The provider receives the same request once per attempt. `onStream` receives every forwarded delta of every attempt. |
| AzureClient.CompleteResolved | src/utils/azureCient.js:42-121 | After the write-back: routing, the call, cleaning, parsing and re-issue, with the same result, log and callback as `Completion`. |
| AzureClient.StripFences | src/utils/azureCient.js:89-92 | On "gpt-4-t" the text becomes `extractContent` of it. |
| AzureClient.Reissue | src/utils/azureCient.js:105-119 | The retry sends the same request once more, with parsing on and retry off, and returns that call's outcome. |
| PlotAgent.QueryContent | src/utils/plot-agent.js:72-94 | Defines the user message of the query prompt, built from the literal pieces around `${prompt}`, `${tableSchema}` and `${responseJSON}`. |
| PlotAgent.GetQueryCreationPrompt | src/utils/plot-agent.js:24-102 | The query prompt is the system message followed by one user message. |
| PlotAgent.QueryPromptOrder | src/utils/plot-agent.js:72-94 | The user message holds the prompt verbatim, then the table schema, then the response schema. |
| PlotAgent.QueryPromptDeterminesPrompt | src/utils/plot-agent.js:72-94 | The query prompt is injective in the rendered prompt: equal messages come only from prompts with equal rendered text. An absent prompt and the text "undefined" render the same. |
| PlotAgent.SummaryContent | src/utils/plot-agent.js:145-158 | Defines the user message of the summary prompt, built from the literal pieces around the results, the user's prompt and the two schemas. |
| PlotAgent.GetSummarizePrompt | src/utils/plot-agent.js:104-166 | The summary prompt is the system message followed by one user message. |
| PlotAgent.SummaryPromptOrder | src/utils/plot-agent.js:145-158 | The user message holds the results, then the user's prompt, then the table schema, then the response schema. |
| PlotAgent.SameSystemMessage | src/utils/plot-agent.js:105-111 | Both builders open with the identical system message. |
| PlotAgent.DefaultsRouteToTurbo | src/utils/plot-agent.js:169-179 | The default model "gpt-4-1106-preview" routes to "gpt-4-t", so both pipeline answers are fence-stripped. |
| PlotAgent.PipelineCallOutcome | src/utils/plot-agent.js:176-181 | A pipeline call makes exactly one provider call. It returns the parse of the fence-stripped text, or throws the listing or parse error. |
| PlotAgent.Plot | src/utils/plot-agent.js:169-182 | `plot` sends one request with the query prompt, its temperature and its model, and resolves to the completion's outcome with retry off. |
| PlotAgent.Chat | src/utils/plot-agent.js:184-198 | `chat` sends one request with the summary prompt, and resolves to the completion's outcome with retry off. |
| App.Store.All | src/app.js:186 | `db.all` records the call and gets the store's reply for it. |
| App.Respond | src/app.js:142-153 | Rows are sent as JSON, and only rows are. A store error sends 500 "Error fetching data from the database". A throw sends 500 "Internal Server Error". |
| App.SpliceStart | src/app.js:193 | The start of `splice` is clamped to the array, and a negative start counts from the end. |
| App.SpliceCount | src/app.js:193 | The delete count is clamped to what is left, and a negative count removes nothing. |
| App.RowArray.Splice | src/app.js:193 | `splice` returns the removed run and leaves the array without it. |
| App.SpliceLosesNothing | src/app.js:193 | The kept rows, with the removed run put back in place, are the original array. |
| App.SpliceFromZero | src/app.js:193 | `splice(0, k)` removes the first `min(N, k)` rows. |
| App.SpliceTakesFirstRows | src/app.js:193 | `rows.splice(0, 20)` returns the first min(N, 20) of the N rows, in store order. Those rows followed by what remains are the original rows. |
| App.FirstRows | src/app.js:193 | The summarised rows are a prefix of the store's rows, of length `min(N, 20)`. |
| App.RequestFor | src/app.js:183-198 | Defines the completion request of a pipeline prompt: the builder's messages, with the default model and temperature of `plot` and `chat`. |
| App.PlotHandler | src/app.js:179-209 | The reference definition of `/plot`. A plan that threw or is null gives 500 "Internal Server Error". The store call takes `plan.query` and `plan.params`. A store error gives 500 with the database text, and a store throw gives the internal text. Rows lead to the summary of the first 20 rows. The trace records the response, the prompts and the store calls in order. |
| App.PipelineRequestRouting | src/app.js:183-198 | Every pipeline request goes to "gpt-4-t" at temperature 0.1 with a system message and a user message. |
| App.SummarizeRows | src/app.js:193-199 | The rows callback sends the first 20 rows, stringified, to `chat`. It sends the body `chat` resolves to, and nothing when `chat` rejects. |
| App.PlotRoute | src/app.js:179-209 | The route's response, its completion requests and its store calls, in order, are those of `PlotHandler`. |
| App.PlanHandler | src/app.js:183-204 | The reference definition of `/plot` after `plot` resolved. A null plan gives 500 "Internal Server Error" with no store call. Otherwise the store call takes `plan.query` and `plan.params`, and only rows lead to the summary request. |
| App.SendPlan | src/app.js:183-204 | After `plot` resolved: the response, the summary request and the store call, in order, are those of `PlanHandler`. |
| App.PlotFailureSkipsStore | src/app.js:183-208 | The store is queried exactly when `plot` resolved to a non-null plan. Otherwise the route answers 500 "Internal Server Error" after the query prompt alone. |
| App.StoreErrorSkipsSummary | src/app.js:186-191 | The summary is requested exactly when the store returned rows. A store error answers 500 with the database text. A throw answers 500 with the internal text. |
| App.PlotCallBudget | src/app.js:183-198 | At most two completion requests and one store call. The first request is always the query prompt, and the second is sent only after the store answered with rows, and is the summary of the first of those rows. |
| App.RowsBeyondLimitIgnored | src/app.js:193-197 | Rows past the 20th never influence the response or the calls. |
| App.SuccessBodyIsSummary | src/app.js:195-199 | A JSON body is sent exactly when the summary resolved, and it is the summary's value. No response at all is sent exactly when the summary rejected. Every earlier failure is a 500. |
| App.Placeholders | src/app.js:138 | Defines the count of `?` placeholders in a query text. |
| App.CenterDataRequest | src/app.js:133-140 | Defines the request for a centre: the filtered query and `["%" + center + "%"]` for a non-empty name; otherwise the plain query with no parameters. |
| App.CenterDataQuery | src/app.js:133-140 | The LIKE filter and its `%center%` parameter are added only for a non-empty centre name. There is one placeholder per parameter. |
| App.GetCenterData | src/app.js:126-154 | One store call with that query and those parameters, answered as `Respond` says. |
| App.FootTrafficPlaceholders | src/app.js:159-163 | The trend query has exactly one placeholder. |
| App.FootTrafficTrend | src/app.js:156-177 | One store call with the fixed trend query and `[centerId]` as its only parameter, answered as `Respond` says. |

## Left out

- Logging: `console.log`, `console.error` and the `formattedLog` built from the request are output only, so they are not modelled. `process.stdout.write` is modelled only for its throw on a null delta. Its output is not modelled.
- `NullChunkError`: the listing error's detail for a null delta is taken to be `{"code":"ERR_STREAM_NULL_VALUES"}`, the `JSON.stringify` of Node's error. Other Node versions may stringify it differently.
- The `OpenAIClient` construction and the network: the completion service is an oracle indexed by call number. Its answer is a call failure, or a stream of events that ends normally or with an error.
- `JSON.parse` and `JSON.stringify` are parameters (`parse`, `stringify`). The model does not check that they are exact inverses, and error details are the strings they give.
- Temperature is passed through as an opaque number. The service's accepted range is not checked.
- The request object spreads `options` into `createChatCompletionRequest`. Only the log uses it, so it is not modelled.
- `event.choices` being undefined, and an `onStream` callback that throws, are not modelled. Both would surface as "listChatCompletions failed" through the same `catch`.
- Asynchronous timing: every `await` completes before the next step. A rejected `chat` inside the `db.all` callback is not caught by the route, and is modelled as no response being sent.
- Query-string values that Express parses into arrays or objects: `prompt` and `center` are an optional string.
- SQL evaluation: the store's reply to a query is an oracle. The model does not relate it to the query text.
- `Property`: reading `query` or `params` from a primitive or an array gives undefined. Properties inherited from prototypes are not modelled.
- `SpliceStart` and `SpliceCount` take integer arguments. The `ToIntegerOrInfinity` conversion of non-number arguments is not modelled.
- `loadDescriptorsJSONFile` in `src/utils/plot-agent.js` is never called by the pipeline and only reads a file, so it is not part of this model.
- The other routes (`/entries`, `/get-shopping-center-names`), CSV ingestion, database bootstrap, CORS, static files and the React UI are outside the pipeline.
- The UI rejects an empty prompt before calling `/plot`. The backend itself does not check it, so the model sends an empty prompt through the pipeline like any other.
- The long prompt and schema literals are written as concatenations of shorter pieces. The text is the same character for character.
