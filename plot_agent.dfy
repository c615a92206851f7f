/**
 * The prompt builders of `src/utils/plot-agent.js` and the two pipeline calls
 * `plot` and `chat`, which wrap a built prompt in one `createChatCompletion`.
 */
module PlotAgent {
  import opened Wrappers
  import opened JsValues
  import opened AzureClient

  /** The system message both builders open with. */
  const SystemPrompt :=
    "You are a data analysis. you can only answer data related question and answer a "
    + "JSON format."

  /** The schema of `shopping_centers_ft` as both prompts describe it to the model. */
  const TableSchema :=
    "CREATE TABLE shopping_centers_ft (\n"
    + "    day DATE COMMENT 'The date of the record',\n"
    + "    id VARCHAR(255) NOT NULL COMMENT 'The unique identifier of the\n"
    + "    shopping center',\n"
    + "    name VARCHAR(255) NOT NULL COMMENT 'The name of the shopping\n"
    + "    center',\n"
    + "    ft INT COMMENT 'The foot traffic at the shopping center',\n"
    + "    state CHAR(2) COMMENT 'The state code where the shopping center\n"
    + "    is located',\n"
    + "    city VARCHAR(255) COMMENT 'The city where the shopping center is\n"
    + "    located',\n"
    + "    formatted_address VARCHAR(255) COMMENT 'The full address of the\n"
    + "    shopping center',\n"
    + "    lon DECIMAL(10, 8) COMMENT 'The longitude coordinate of the\n"
    + "    shopping center',\n"
    + "    lat DECIMAL(10, 8) COMMENT 'The latitude coordinate of the\n"
    + "    shopping center',\n"
    + "    PRIMARY KEY (day, id)\n"
    + "    );"

  /** The response schema the query prompt asks for (its text is not valid JSON, and is sent as it is). */
  const QueryResponseSchema :=
    "{\n"
    + "    \"type\": \"object\",\n"
    + "    \"properties\": {\n"
    + "      \"query\": {\n"
    + "        \"type\": \"string\",\n"
    + "        \"description\": \"The SQL query string with placeholders for parameters.\"\n"
    + "      },\n"
    + "      \"params\": {\n"
    + "        \"type\": \"array\",\n"
    + "        \"description\": \"An array of parameters to be substituted in place of "
    + "the query's placeholders.\",\n"
    + "        \"items\": {\n"
    + "          \"type\": \"string\"\n"
    + "        }\n"
    + "      }\n"
    + "      \"\"\n"
    + "    },\n"
    + "    \"required\": [\"query\", \"params\"]\n"
    + "  }  "

  /** The response schema the summary prompt asks for. */
  const SummaryResponseSchema :=
    "{\n"
    + "    \"type\": \"object\",\n"
    + "    \"properties\": {\n"
    + "      \"summary\": {\n"
    + "        \"type\": \"string\",\n"
    + "        \"description\": \"explain the data in natrual lanuage for a sale "
    + "persons.\"\n"
    + "      }\n"
    + "      }\n"
    + "    },\n"
    + "    \"required\": [\"summary\"]\n"
    + "  }  "

  // The fixed pieces of the two user-message templates, in order.
  const QueryIntro :=
    "\n"
    + "  Build a matching SQLlite query for this prompt:\n"
    + "  "
  const QueryRules :=
    "\n"
    + "\n"
    + "  * Make sure the query and functions executes on SQLite.\n"
    + "    * There is still no built-in stdev function in sqlite\n"
    + "    * don't use: tddev_pop.\n"
    + "    * don't use table aliases.\n"
    + "    * For any calculation involving aggregate functions, first compute the "
    + "aggregates separately and then use these computed values in subsequent "
    + "calculations to ensure accuracy and avoid errors.\n"
    + "    * Reference columns directly from the CTE in your final SELECT statement "
    + "without prefixing them with the original table name.\n"
    + "    * Structure your query to calculate aggregate metrics in one Common Table "
    + "Expression (CTE) and then reference these metrics for further calculations in "
    + "subsequent CTEs, ensuring all necessary data is accessible and correctly scoped "
    + "for each step of the analysis.\n"
    + "    * Qualify ambiguous column names with table aliases throughout your SQL "
    + "query to resolve the \"ambiguous column name\" error.\n"
    + "  * return the query as single string with not formatting nor escaping.\n"
    + "  * if the purpose of the prompt is not dataRetrieval:\n"
    + "      * write the query for the data summarization process.\n"
    + "     * IMPORTANT: Do not return the full data; instead, provide a concise "
    + "summary that facilitates data analysis.\n"
    + "  \n"
    + "  table schema: \n"
    + "  "
  const SummaryIntro :=
    "\n"
    + "  Explain and analyze the following results for a data analysts:\n"
    + "  "
  const SummaryPromptIntro :=
    "\n"
    + "\n"
    + "\n"
    + "  the results are based on this user prompt:\n"
    + "  "
  const SchemaIntro :=
    "\n"
    + "  \n"
    + "  table schema: \n"
    + "  "
  const ReturnJsonIntro :=
    "\n"
    + "  \n"
    + "  Return a JSON matching the provided schema (return only the actual values "
    + "while removing any field related to the schema):\n"
    + "  "
  const Closing :=
    "\n"
    + "  "

  /** The defaults of `plot` and `chat`. */
  const DefaultTemperature: real := 0.1
  const DefaultModel := "gpt-4-1106-preview"

  /**
   * Two texts built from the same fixed pieces around one interpolated part are
   * equal only when the parts are: the part is recovered from its position.
   */
  lemma CancelFixedPieces(a: string, x: string, y: string, b: string, c: string, d: string, e: string, f: string)
    requires a + x + b + c + d + e + f == a + y + b + c + d + e + f
    ensures x == y
  {
    var s := a + x + b + c + d + e + f;
    var t := a + y + b + c + d + e + f;
    assert |x| == |y|;
    assert s == a + x + (b + c + d + e + f);
    assert t == a + y + (b + c + d + e + f);
    assert x == s[|a|..|a| + |x|];
    assert y == t[|a|..|a| + |y|];
  }

  // ---------------------------------------------------------------------------
  // getQueryCreationPrompt
  // ---------------------------------------------------------------------------

  /** The user message of the query prompt; an absent prompt is interpolated as "undefined". */
  function QueryContent(prompt: Option<string>): string {
    QueryIntro + Render(prompt) + QueryRules + TableSchema + ReturnJsonIntro + QueryResponseSchema + Closing
  }

  /** `getQueryCreationPrompt(prompt)`: the system message, then the user message asking for a query. */
  function GetQueryCreationPrompt(prompt: Option<string>): (ms: seq<Message>)
    ensures |ms| == 2
    ensures ms[0] == Message("system", SystemPrompt) && ms[1].role == "user"
  {
    [Message("system", SystemPrompt), Message("user", QueryContent(prompt))]
  }

  /** The user message holds the prompt verbatim, later the table schema, and after that the response schema. */
  lemma QueryPromptOrder(prompt: Option<string>)
    ensures exists pre, mid, mid', post :: GetQueryCreationPrompt(prompt)[1].content
              == pre + Render(prompt) + mid + TableSchema + mid' + QueryResponseSchema + post
  {
    var pre, mid, mid', post := QueryIntro, QueryRules, ReturnJsonIntro, Closing;
    assert GetQueryCreationPrompt(prompt)[1].content
           == pre + Render(prompt) + mid + TableSchema + mid' + QueryResponseSchema + post;
  }

  /**
   * The query prompt determines the prompt's text: two prompts that build the same
   * messages render to the same text.
   */
  lemma QueryPromptDeterminesPrompt(p: Option<string>, q: Option<string>)
    requires GetQueryCreationPrompt(p) == GetQueryCreationPrompt(q)
    ensures Render(p) == Render(q)
  {
    assert QueryContent(p) == GetQueryCreationPrompt(p)[1].content == GetQueryCreationPrompt(q)[1].content;
    CancelFixedPieces(QueryIntro, Render(p), Render(q), QueryRules, TableSchema, ReturnJsonIntro,
                      QueryResponseSchema, Closing);
  }

  // ---------------------------------------------------------------------------
  // getSummarizePrompt
  // ---------------------------------------------------------------------------

  /** The user message of the summary prompt. */
  function SummaryContent(results: string, userPrompt: Option<string>): string {
    SummaryIntro + results + SummaryPromptIntro + Render(userPrompt) + SchemaIntro + TableSchema
    + ReturnJsonIntro + SummaryResponseSchema + Closing
  }

  /** `getSummarizePrompt(results, userPrompt)`: the same system message, then the user message asking for a summary. */
  function GetSummarizePrompt(results: string, userPrompt: Option<string>): (ms: seq<Message>)
    ensures |ms| == 2
    ensures ms[0] == Message("system", SystemPrompt) && ms[1].role == "user"
  {
    [Message("system", SystemPrompt), Message("user", SummaryContent(results, userPrompt))]
  }

  /** The user message holds the results, later the user's prompt, then the table schema and the response schema. */
  lemma SummaryPromptOrder(results: string, userPrompt: Option<string>)
    ensures exists pre, mid, mid', mid'', post :: GetSummarizePrompt(results, userPrompt)[1].content
              == pre + results + mid + Render(userPrompt) + mid' + TableSchema + mid'' + SummaryResponseSchema + post
  {
    var pre, mid, mid', mid'', post := SummaryIntro, SummaryPromptIntro, SchemaIntro, ReturnJsonIntro, Closing;
    assert GetSummarizePrompt(results, userPrompt)[1].content
           == pre + results + mid + Render(userPrompt) + mid' + TableSchema + mid'' + SummaryResponseSchema + post;
  }

  /** Both builders open with the identical system message. */
  lemma SameSystemMessage(prompt: Option<string>, results: string, userPrompt: Option<string>)
    ensures GetQueryCreationPrompt(prompt)[0] == GetSummarizePrompt(results, userPrompt)[0]
  {
  }

  // ---------------------------------------------------------------------------
  // plot and chat
  // ---------------------------------------------------------------------------

  /** The deployment a pipeline call with `model` goes to. */
  function PipelineDeployment(model: string): string {
    DeploymentFor(ResolveModel(Some(model)))
  }

  /** With the default model both pipeline calls go to the turbo deployment, which strips fences. */
  lemma DefaultsRouteToTurbo()
    ensures PipelineDeployment(DefaultModel) == Gpt4Turbo && ShouldClean(PipelineDeployment(DefaultModel))
  {
  }

  /**
   * A pipeline call makes exactly one provider call, since retry is off, and returns the
   * parse of the fence-stripped text, or throws.
   */
  lemma PipelineCallOutcome(answer: nat -> Attempt, n: nat, parse: string -> Result<Json, string>)
    ensures var run := Completion(answer, n, PipelineDeployment(DefaultModel), true, false, parse);
            var got := Collect(answer(n));
            && run.attempts == 1
            && (got.text.Err? ==> run.result == Err(ListFailed(got.text.error)))
            && (got.text.Ok? ==> run.result == match parse(ExtractContent(got.text.value))
                                               case Ok(v) => Ok(v)
                                               case Err(m) => Err(ParseFailed(m)))
  {
    DefaultsRouteToTurbo();
  }

  /** `plot(prompt, temperature, model)`: one completion of the query prompt with JSON parsing and no retry. */
  method Plot(prompt: Option<string>, provider: Provider, parse: string -> Result<Json, string>,
              temperature: real := DefaultTemperature, model: string := DefaultModel)
    returns (response: Result<Json, CompletionError>)
    modifies provider
    ensures var deployment := PipelineDeployment(model);
            && response == Completion(provider.answer, |old(provider.log)|, deployment, true, false, parse).result
            && provider.log == old(provider.log) + [Request(deployment, GetQueryCreationPrompt(prompt), temperature)]
  {
    var messages := GetQueryCreationPrompt(prompt);
    var options := new Options(Some(model), temperature);
    response := CreateChatCompletion(messages, true, options, false, null, provider, parse);
  }

  /** `chat(dataResults, userPrompt, temperature, model)`: the same, for the summary prompt. */
  method Chat(dataResults: string, userPrompt: Option<string>, provider: Provider, parse: string -> Result<Json, string>,
              temperature: real := DefaultTemperature, model: string := DefaultModel)
    returns (response: Result<Json, CompletionError>)
    modifies provider
    ensures var deployment := PipelineDeployment(model);
            && response == Completion(provider.answer, |old(provider.log)|, deployment, true, false, parse).result
            && provider.log == old(provider.log)
                               + [Request(deployment, GetSummarizePrompt(dataResults, userPrompt), temperature)]
  {
    var messages := GetSummarizePrompt(dataResults, userPrompt);
    var options := new Options(Some(model), temperature);
    response := CreateChatCompletion(messages, true, options, false, null, provider, parse);
  }
}
