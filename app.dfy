/**
 * The database-facing routes of `src/app.js`: `/plot`, which turns a prompt into
 * a query, runs it and summarises the first rows, and the two parameterised
 * lookups `/get-center-data` and `/foot-traffic-trend/:centerId`.
 *
 * The SQLite handle is a `Store` whose `all` answers are an oracle; a route's
 * outcome is the `Response` it sends.
 */
module App {
  import opened Wrappers
  import opened JsValues
  import opened AzureClient
  import opened PlotAgent

  /** The texts the routes send with status 500. */
  const InternalServerError := "Internal Server Error"
  const DatabaseError := "Error fetching data from the database"

  /** What a route sends: a JSON body, a 500 with a text, or nothing at all. */
  datatype Response = JsonBody(body: Json) | ServerError(text: string) | NoResponse

  // ---------------------------------------------------------------------------
  // The store
  // ---------------------------------------------------------------------------

  /** The arguments of one `db.all(sql, params, callback)`; `None` is an undefined argument. */
  datatype StoreCall = StoreCall(sql: Option<Json>, params: Option<Json>)

  /**
   * How `db.all` ends: the callback gets rows, the callback gets an error, or the
   * call throws before any callback.
   */
  datatype StoreReply = Rows(rows: seq<Json>) | Failed(error: string) | Threw(error: string)

  /** The database handle; the `k`-th call is answered by `reply(k, call)`. */
  class Store {
    const reply: (nat, StoreCall) -> StoreReply
    var log: seq<StoreCall>

    constructor(reply: (nat, StoreCall) -> StoreReply)
      ensures this.reply == reply && log == []
    {
      this.reply := reply;
      log := [];
    }

    /** `db.all(sql, params, callback)`, with the callback's outcome returned. */
    method All(sql: Option<Json>, params: Option<Json>) returns (r: StoreReply)
      modifies this
      ensures log == old(log) + [StoreCall(sql, params)]
      ensures r == reply(|old(log)|, StoreCall(sql, params))
    {
      r := reply(|log|, StoreCall(sql, params));
      log := log + [StoreCall(sql, params)];
    }
  }

  /** What a plain lookup route sends for a store reply: the rows, or a 500. */
  function Respond(reply: StoreReply): (r: Response)
    ensures r.JsonBody? <==> reply.Rows?
    ensures reply.Failed? ==> r == ServerError(DatabaseError)
    ensures reply.Threw? ==> r == ServerError(InternalServerError)
    ensures r != NoResponse
  {
    match reply
    case Rows(rows) => JsonBody(JArray(rows))
    case Failed(_) => ServerError(DatabaseError)
    case Threw(_) => ServerError(InternalServerError)
  }

  /** A list of strings as the JSON array passed as query parameters. */
  function Strings(ss: seq<string>): (r: Json)
    ensures r.JArray? && |r.items| == |ss|
    ensures forall j :: 0 <= j < |ss| ==> r.items[j] == JString(ss[j])
  {
    if ss == [] then JArray([]) else JArray(Strings(ss[..|ss| - 1]).items + [JString(ss[|ss| - 1])])
  }

  // ---------------------------------------------------------------------------
  // Array.prototype.splice on the row array
  // ---------------------------------------------------------------------------

  function Min(a: int, b: int): int {
    if a <= b then a else b
  }

  /** Where `splice(start, …)` starts on an array of `len` elements: negative counts from the end, both clamped. */
  function SpliceStart(len: nat, start: int): (s: nat)
    ensures s <= len
    ensures 0 <= start ==> s == Min(start, len)
    ensures start < 0 ==> s == if len + start < 0 then 0 else len + start
  {
    if start < 0 then (if len + start < 0 then 0 else len + start)
    else if start > len then len
    else start
  }

  /** How many elements `splice(…, deleteCount)` removes from `s` on: clamped to what is left. */
  function SpliceCount(len: nat, s: nat, deleteCount: int): (n: nat)
    requires s <= len
    ensures s + n <= len
    ensures 0 <= deleteCount ==> n == Min(deleteCount, len - s)
    ensures deleteCount < 0 ==> n == 0
  {
    if deleteCount < 0 then 0
    else if deleteCount > len - s then len - s
    else deleteCount
  }

  /** A JavaScript array of rows, changed in place by `splice`. */
  class RowArray {
    var items: seq<Json>

    constructor(items: seq<Json>)
      ensures this.items == items
    {
      this.items := items;
    }

    /** `items.splice(start, deleteCount)`: removes a run of elements and returns it. */
    method Splice(start: int, deleteCount: int) returns (removed: seq<Json>)
      modifies this
      ensures var s := SpliceStart(|old(items)|, start);
              var n := SpliceCount(|old(items)|, s, deleteCount);
              && removed == old(items)[s..s + n]
              && items == old(items)[..s] + old(items)[s + n..]
    {
      var s := SpliceStart(|items|, start);
      var n := SpliceCount(|items|, s, deleteCount);
      removed := items[s..s + n];
      items := items[..s] + items[s + n..];
    }
  }

  /** Putting the removed run back where it was restores the array: splice loses nothing. */
  lemma SpliceLosesNothing(xs: seq<Json>, start: int, deleteCount: int)
    ensures var s := SpliceStart(|xs|, start);
            var n := SpliceCount(|xs|, s, deleteCount);
            xs[..s] + xs[s..s + n] + xs[s + n..] == xs
  {
    var s := SpliceStart(|xs|, start);
    var n := SpliceCount(|xs|, s, deleteCount);
    assert xs[..s] + xs[s..s + n] == xs[..s + n];
  }

  /** The number of rows `/plot` hands to the summary. */
  const SummaryRowLimit := 20

  /** The rows `/plot` summarises: the first ones, in store order, at most `SummaryRowLimit` of them. */
  function FirstRows(rows: seq<Json>): (r: seq<Json>)
    ensures |r| == Min(|rows|, SummaryRowLimit) && r == rows[..|r|]
  {
    rows[..Min(|rows|, SummaryRowLimit)]
  }

  /** `rows.splice(0, k)` with `k >= 0` removes the first `min(N, k)` rows and leaves the rest, in order. */
  lemma SpliceFromZero(xs: seq<Json>, k: int)
    requires 0 <= k
    ensures var n := SpliceCount(|xs|, SpliceStart(|xs|, 0), k);
            && SpliceStart(|xs|, 0) == 0
            && n == Min(|xs|, k)
            && xs[0..n] == xs[..Min(|xs|, k)]
            && xs[0 + n..] == xs[Min(|xs|, k)..]
  {
  }

  /** `rows.splice(0, 20)` removes exactly the rows `/plot` summarises. */
  lemma SpliceTakesFirstRows(xs: seq<Json>)
    ensures var n := SpliceCount(|xs|, SpliceStart(|xs|, 0), SummaryRowLimit);
            xs[0..n] == FirstRows(xs) && FirstRows(xs) + xs[n..] == xs
  {
    SpliceFromZero(xs, SummaryRowLimit);
    SpliceLosesNothing(xs, 0, SummaryRowLimit);
  }

  // ---------------------------------------------------------------------------
  // /plot
  // ---------------------------------------------------------------------------

  /** The two prompts a `/plot` request can send: the query prompt, and the summary prompt for the results. */
  datatype PipelinePrompt = QueryPrompt(prompt: Option<string>) | SummaryPrompt(results: string, userPrompt: Option<string>)

  /** The completion request `plot` or `chat` sends for a prompt, with their default model and temperature. */
  function RequestFor(p: PipelinePrompt): Request {
    var messages := match p
      case QueryPrompt(prompt) => GetQueryCreationPrompt(prompt)
      case SummaryPrompt(results, userPrompt) => GetSummarizePrompt(results, userPrompt);
    Request(PipelineDeployment(DefaultModel), messages, DefaultTemperature)
  }

  function RequestsFor(ps: seq<PipelinePrompt>): (rs: seq<Request>)
    ensures |rs| == |ps| && forall j :: 0 <= j < |ps| ==> rs[j] == RequestFor(ps[j])
  {
    if ps == [] then [] else [RequestFor(ps[0])] + RequestsFor(ps[1..])
  }

  /** Every request of the pipeline goes to the turbo deployment with temperature 0.1, and carries two messages. */
  lemma PipelineRequestRouting(p: PipelinePrompt)
    ensures RequestFor(p).deployment == Gpt4Turbo && RequestFor(p).temperature == DefaultTemperature
    ensures |RequestFor(p).messages| == 2 && RequestFor(p).messages[0].role == "system"
            && RequestFor(p).messages[1].role == "user"
  {
    DefaultsRouteToTurbo();
  }

  /** What one `/plot` request does: the response, the prompts sent to the provider and the store calls, in order. */
  datatype PlotTrace = PlotTrace(response: Response, prompts: seq<PipelinePrompt>, storeCalls: seq<StoreCall>)

  /**
   * `/plot?prompt=…` when the provider's calls start at answer `n` and the store's
   * at answer `m`. A thrown `plot` ends in the route's catch; what follows a
   * resolved plan is `PlanHandler`.
   */
  function PlotHandler(prompt: Option<string>, answer: nat -> Attempt, n: nat,
                       reply: (nat, StoreCall) -> StoreReply, m: nat,
                       parse: string -> Result<Json, string>, stringify: seq<Json> -> string): PlotTrace
  {
    match Completion(answer, n, PipelineDeployment(DefaultModel), true, false, parse).result
    case Err(_) => PlotTrace(ServerError(InternalServerError), [QueryPrompt(prompt)], [])
    case Ok(plan) =>
      var t := PlanHandler(prompt, plan, answer, n + 1, reply, m, parse, stringify);
      PlotTrace(t.response, [QueryPrompt(prompt)] + t.prompts, t.storeCalls)
  }

  /**
   * `/plot` once `plot` resolved to `plan`, with the summary's provider calls
   * starting at answer `n`: only the prompts sent from here on are recorded. A null
   * plan (reading `.query` of null throws) ends in the route's catch; a rejected
   * `chat` escapes the store callback, so no response is sent.
   */
  function PlanHandler(prompt: Option<string>, plan: Json, answer: nat -> Attempt, n: nat,
                       reply: (nat, StoreCall) -> StoreReply, m: nat,
                       parse: string -> Result<Json, string>, stringify: seq<Json> -> string): PlotTrace
  {
    if plan == JNull then PlotTrace(ServerError(InternalServerError), [], [])
    else
      var call := StoreCall(Property(plan, "query"), Property(plan, "params"));
      match reply(m, call)
      case Threw(_) => PlotTrace(ServerError(InternalServerError), [], [call])
      case Failed(_) => PlotTrace(ServerError(DatabaseError), [], [call])
      case Rows(rows) =>
        var summary := Completion(answer, n, PipelineDeployment(DefaultModel), true, false, parse).result;
        var response := if summary.Ok? then JsonBody(summary.value) else NoResponse;
        PlotTrace(response, [SummaryPrompt(stringify(FirstRows(rows)), prompt)], [call])
  }

  /** The store callback of `/plot` on rows: summarise the first rows and send what `chat` resolves to. */
  method SummarizeRows(rows: seq<Json>, prompt: Option<string>, provider: Provider,
                       parse: string -> Result<Json, string>, stringify: seq<Json> -> string)
    returns (resp: Response)
    modifies provider
    ensures var summary := Completion(provider.answer, |old(provider.log)|, PipelineDeployment(DefaultModel),
                                      true, false, parse).result;
            && resp == (if summary.Ok? then JsonBody(summary.value) else NoResponse)
            && provider.log == old(provider.log) + [RequestFor(SummaryPrompt(stringify(FirstRows(rows)), prompt))]
  {
    var rowArray := new RowArray(rows);
    var limitedRows := rowArray.Splice(0, SummaryRowLimit);
    SpliceTakesFirstRows(rows);
    var summaryJson := Chat(stringify(limitedRows), prompt, provider, parse);
    if summaryJson.Ok? {
      resp := JsonBody(summaryJson.value);
    } else {
      resp := NoResponse;
    }
  }

  /** The `/plot` handler. */
  method PlotRoute(prompt: Option<string>, provider: Provider, store: Store,
                   parse: string -> Result<Json, string>, stringify: seq<Json> -> string)
    returns (resp: Response)
    modifies provider, store
    ensures var t := PlotHandler(prompt, provider.answer, |old(provider.log)|, store.reply, |old(store.log)|,
                                 parse, stringify);
            && resp == t.response
            && provider.log == old(provider.log) + RequestsFor(t.prompts)
            && store.log == old(store.log) + t.storeCalls
  {
    var response := Plot(prompt, provider, parse);
    if response.Err? {
      assert RequestsFor([QueryPrompt(prompt)]) == [RequestFor(QueryPrompt(prompt))];
      return ServerError(InternalServerError);
    }
    ghost var queried := provider.log;
    resp := SendPlan(response.value, prompt, provider, store, parse, stringify);
    ghost var t := PlanHandler(prompt, response.value, provider.answer, |queried|, store.reply, |old(store.log)|,
                               parse, stringify);
    assert ([QueryPrompt(prompt)] + t.prompts)[1..] == t.prompts;
    AppendAssociates(old(provider.log), [RequestFor(QueryPrompt(prompt))], RequestsFor(t.prompts));
  }

  /** The part of the `/plot` handler after `plot` resolved: the store call and its callback. */
  method SendPlan(plan: Json, prompt: Option<string>, provider: Provider, store: Store,
                  parse: string -> Result<Json, string>, stringify: seq<Json> -> string)
    returns (resp: Response)
    modifies provider, store
    ensures var t := PlanHandler(prompt, plan, provider.answer, |old(provider.log)|, store.reply, |old(store.log)|,
                                 parse, stringify);
            && resp == t.response
            && provider.log == old(provider.log) + RequestsFor(t.prompts)
            && store.log == old(store.log) + t.storeCalls
  {
    if plan == JNull {
      return ServerError(InternalServerError);
    }
    var reply := store.All(Property(plan, "query"), Property(plan, "params"));
    match reply
    case Threw(_) =>
      resp := ServerError(InternalServerError);
    case Failed(_) =>
      resp := ServerError(DatabaseError);
    case Rows(rows) =>
      ghost var summarised := SummaryPrompt(stringify(FirstRows(rows)), prompt);
      resp := SummarizeRows(rows, prompt, provider, parse, stringify);
      assert RequestsFor([summarised]) == [RequestFor(summarised)];
  }

  /**
   * The query runs exactly when `plot` resolved to a non-null plan; when it threw
   * or resolved to null, the summary is never asked for and the route answers 500.
   */
  lemma PlotFailureSkipsStore(prompt: Option<string>, answer: nat -> Attempt, n: nat,
                              reply: (nat, StoreCall) -> StoreReply, m: nat,
                              parse: string -> Result<Json, string>, stringify: seq<Json> -> string)
    ensures var plan := Completion(answer, n, PipelineDeployment(DefaultModel), true, false, parse).result;
            var t := PlotHandler(prompt, answer, n, reply, m, parse, stringify);
            && (t.storeCalls == [] <==> plan.Err? || plan.value == JNull)
            && (t.storeCalls == [] ==> t.response == ServerError(InternalServerError) && t.prompts == [QueryPrompt(prompt)])
  {
  }

  /**
   * The summary is requested exactly when the store answered with rows, and a
   * store error answers 500 with the matching text.
   */
  lemma StoreErrorSkipsSummary(prompt: Option<string>, answer: nat -> Attempt, n: nat,
                               reply: (nat, StoreCall) -> StoreReply, m: nat,
                               parse: string -> Result<Json, string>, stringify: seq<Json> -> string)
    ensures var t := PlotHandler(prompt, answer, n, reply, m, parse, stringify);
            && (|t.prompts| == 2 <==> |t.storeCalls| == 1 && reply(m, t.storeCalls[0]).Rows?)
            && (|t.storeCalls| == 1 && reply(m, t.storeCalls[0]).Failed? ==> t.response == ServerError(DatabaseError))
            && (|t.storeCalls| == 1 && reply(m, t.storeCalls[0]).Threw? ==> t.response == ServerError(InternalServerError))
  {
    match Completion(answer, n, PipelineDeployment(DefaultModel), true, false, parse).result
    case Err(_) =>
    case Ok(plan) =>
      if plan != JNull {
        var call := StoreCall(Property(plan, "query"), Property(plan, "params"));
        match reply(m, call)
        case Rows(rows) =>
        case Failed(_) =>
        case Threw(_) =>
      }
  }

  /**
   * A request makes at most two provider calls and one store call: first the query
   * prompt for the user's prompt, then, once the store returned rows, the summary
   * prompt for the first of those rows and the same user prompt.
   */
  lemma PlotCallBudget(prompt: Option<string>, answer: nat -> Attempt, n: nat,
                       reply: (nat, StoreCall) -> StoreReply, m: nat,
                       parse: string -> Result<Json, string>, stringify: seq<Json> -> string)
    ensures var t := PlotHandler(prompt, answer, n, reply, m, parse, stringify);
            && 1 <= |t.prompts| <= 2 && |t.storeCalls| <= 1
            && t.prompts[0] == QueryPrompt(prompt)
            && (|t.prompts| == 2 ==> && |t.storeCalls| == 1 && reply(m, t.storeCalls[0]).Rows?
                                     && t.prompts[1] == SummaryPrompt(stringify(FirstRows(reply(m, t.storeCalls[0]).rows)), prompt))
  {
    match Completion(answer, n, PipelineDeployment(DefaultModel), true, false, parse).result
    case Err(_) =>
    case Ok(plan) =>
      if plan != JNull {
        var call := StoreCall(Property(plan, "query"), Property(plan, "params"));
        match reply(m, call)
        case Rows(rows) =>
        case Failed(_) =>
        case Threw(_) =>
      }
  }

  /**
   * Only the first `SummaryRowLimit` rows matter: a store that answered with just
   * those rows leads to the same response and the same calls.
   */
  lemma RowsBeyondLimitIgnored(prompt: Option<string>, answer: nat -> Attempt, n: nat,
                               reply: (nat, StoreCall) -> StoreReply, reply': (nat, StoreCall) -> StoreReply, m: nat,
                               parse: string -> Result<Json, string>, stringify: seq<Json> -> string)
    requires forall c :: reply'(m, c) == if reply(m, c).Rows? then Rows(FirstRows(reply(m, c).rows)) else reply(m, c)
    ensures PlotHandler(prompt, answer, n, reply, m, parse, stringify)
            == PlotHandler(prompt, answer, n, reply', m, parse, stringify)
  {
    match Completion(answer, n, PipelineDeployment(DefaultModel), true, false, parse).result
    case Err(_) =>
    case Ok(plan) =>
      if plan != JNull {
        var call := StoreCall(Property(plan, "query"), Property(plan, "params"));
        if reply(m, call).Rows? {
          var rows := reply(m, call).rows;
          assert FirstRows(FirstRows(rows)) == FirstRows(rows);
        }
      }
  }

  /**
   * A sent body is exactly the value `chat` resolved to; a rejected `chat` sends nothing,
   * and every other outcome is a 500.
   */
  lemma SuccessBodyIsSummary(prompt: Option<string>, answer: nat -> Attempt, n: nat,
                             reply: (nat, StoreCall) -> StoreReply, m: nat,
                             parse: string -> Result<Json, string>, stringify: seq<Json> -> string)
    ensures var t := PlotHandler(prompt, answer, n, reply, m, parse, stringify);
            var summary := Completion(answer, n + 1, PipelineDeployment(DefaultModel), true, false, parse).result;
            && (t.response.JsonBody? <==> |t.prompts| == 2 && summary.Ok?)
            && (t.response.JsonBody? ==> t.response.body == summary.value)
            && (t.response == NoResponse <==> |t.prompts| == 2 && summary.Err?)
            && (|t.prompts| == 1 ==> t.response.ServerError?)
  {
    match Completion(answer, n, PipelineDeployment(DefaultModel), true, false, parse).result
    case Err(_) =>
    case Ok(plan) =>
      if plan != JNull {
        var call := StoreCall(Property(plan, "query"), Property(plan, "params"));
        match reply(m, call)
        case Rows(rows) =>
        case Failed(_) =>
        case Threw(_) =>
      }
  }

  // ---------------------------------------------------------------------------
  // /get-center-data and /foot-traffic-trend/:centerId
  // ---------------------------------------------------------------------------

  /** The number of `?` placeholders in a query. */
  function Placeholders(s: string): nat {
    if s == [] then 0 else Placeholders(s[..|s| - 1]) + if s[|s| - 1] == '?' then 1 else 0
  }

  lemma {:induction false} PlaceholdersAppend(a: string, b: string)
    ensures Placeholders(a + b) == Placeholders(a) + Placeholders(b)
    decreases |b|
  {
    if b == [] {
      assert a + b == a;
    } else {
      assert (a + b)[..|a + b| - 1] == a + b[..|b| - 1];
      PlaceholdersAppend(a, b[..|b| - 1]);
    }
  }

  lemma {:induction false} NoPlaceholders(s: string)
    requires '?' !in s
    ensures Placeholders(s) == 0
    decreases |s|
  {
    if s != [] {
      assert s[|s| - 1] in s;
      assert forall c :: c in s[..|s| - 1] ==> c in s;
      NoPlaceholders(s[..|s| - 1]);
    }
  }

  /**
   * The query `/get-center-data` starts from, and the filter it appends for a centre
   * name. The texts are written in pieces so that the placeholder is its own piece.
   */
  const CenterListQuery := "SELECT DISTINCT name, id, " + "city, state FROM shopping_centers_ft"
  const NameFilter := " WHERE name LIKE " + "?"

  /** The query and parameters `/get-center-data?center=…` sends for `center`. */
  predicate CenterDataRequest(center: Option<string>, query: string, params: seq<string>) {
    if Truthy(center) then query == CenterListQuery + NameFilter && params == ["%" + center.value + "%"]
    else query == CenterListQuery && params == []
  }

  /**
   * Builds the `/get-center-data` query: the filter and its `%…%` pattern only for a
   * non-empty `center`, with one placeholder per parameter.
   */
  method CenterDataQuery(center: Option<string>) returns (query: string, params: seq<string>)
    ensures CenterDataRequest(center, query, params)
    ensures Placeholders(query) == |params|
    ensures forall p :: p in params ==> Truthy(center) && p == "%" + center.value + "%"
  {
    query := CenterListQuery;
    params := [];
    NoPlaceholders(CenterListQuery);
    if Truthy(center) {
      query := query + NameFilter;
      params := params + ["%" + center.value + "%"];
      NoPlaceholders(" WHERE name LIKE ");
      PlaceholdersAppend(" WHERE name LIKE ", "?");
      PlaceholdersAppend(CenterListQuery, NameFilter);
    }
  }

  /** The `/get-center-data` handler. */
  method GetCenterData(center: Option<string>, store: Store) returns (resp: Response)
    modifies store
    ensures exists query, params :: CenterDataRequest(center, query, params)
              && store.log == old(store.log) + [StoreCall(Some(JString(query)), Some(Strings(params)))]
              && resp == Respond(store.reply(|old(store.log)|, StoreCall(Some(JString(query)), Some(Strings(params)))))
  {
    var query, params := CenterDataQuery(center);
    var reply := store.All(Some(JString(query)), Some(Strings(params)));
    resp := Respond(reply);
  }

  /** The fixed query of `/foot-traffic-trend/:centerId`, in pieces around its placeholder. */
  const TrendSelect := "\n            SELECT day, ft \n" + "            FROM shopping_centers_ft \n" + "            WHERE id = "
  const TrendOrder := " \n            ORDER BY day ASC"
  const FootTrafficQuery := TrendSelect + "?" + TrendOrder

  /** The trend query has exactly one placeholder, which the route fills with the centre id. */
  lemma FootTrafficPlaceholders()
    ensures Placeholders(FootTrafficQuery) == 1
  {
    NoPlaceholders(TrendSelect);
    NoPlaceholders(TrendOrder);
    PlaceholdersAppend(TrendSelect, "?");
    PlaceholdersAppend(TrendSelect + "?", TrendOrder);
  }

  /** The `/foot-traffic-trend/:centerId` handler: the fixed query with the path's id as its only parameter. */
  method FootTrafficTrend(centerId: string, store: Store) returns (resp: Response)
    modifies store
    ensures var call := StoreCall(Some(JString(FootTrafficQuery)), Some(JArray([JString(centerId)])));
            && store.log == old(store.log) + [call]
            && resp == Respond(store.reply(|old(store.log)|, call))
  {
    var reply := store.All(Some(JString(FootTrafficQuery)), Some(JArray([JString(centerId)])));
    resp := Respond(reply);
  }
}
