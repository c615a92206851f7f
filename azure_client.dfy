/**
 * The completion wrapper of the backend (src/utils/azureCient.js).
 *
 * `ExtractContent` strips a Markdown code fence from a model's answer, with the
 * exact semantics of the regular expression /```(?:\w+\n)?([\s\S]*?)```/ run once
 * from the start of the string, followed by `trim`.
 *
 * `CreateChatCompletion` writes the resolved model name back into the caller's
 * options, routes it to a deployment, reads the provider's stream event by event
 * and choice by choice, forwards every delta to an optional sink, strips the fence
 * for the "gpt-4-t" deployment, optionally JSON-parses the text and, when asked to,
 * re-issues the whole request once if parsing fails.
 *
 * The network is an oracle (`Provider.answer`) that says what the n-th call
 * yields; `JSON.parse` is a function parameter `parse`.
 */
module AzureClient {
  import opened Wrappers
  import opened JsValues

  // ---------------------------------------------------------------------------
  // extractContent
  // ---------------------------------------------------------------------------

  /** `\w` of a JavaScript regular expression without the `u` flag. */
  predicate IsWordChar(c: char) {
    ('a' <= c <= 'z') || ('A' <= c <= 'Z') || ('0' <= c <= '9') || c == '_'
  }

  /** Three backticks start at index `k` of `s`. */
  predicate FenceAt(s: string, k: int) {
    0 <= k && k + 3 <= |s| && s[k] == '`' && s[k + 1] == '`' && s[k + 2] == '`'
  }

  /** `s[p..q]` is a language tag: one or more word characters and a newline (`\w+\n`). */
  ghost predicate TagSpan(s: string, p: int, q: int) {
    0 <= p && p + 2 <= q <= |s| && s[q - 1] == '\n'
    && forall j :: p <= j < q - 1 ==> IsWordChar(s[j])
  }

  /** `i` is the first index of `s` where a fence starts. */
  ghost predicate LeftmostFence(s: string, i: int) {
    FenceAt(s, i) && forall j :: 0 <= j < i ==> !FenceAt(s, j)
  }

  /**
   * The regular expression's group begins at `c` after the leftmost fence `i`:
   * past the language tag when the text after the fence starts with one (the
   * optional group is greedy), right after the fence otherwise.
   */
  ghost predicate OpensBlock(s: string, i: int, c: int) {
    LeftmostFence(s, i) && GroupStartsAt(s, i + 3, c)
  }

  /**
   * After a fence that ends at `p`, the group starts at `c`: past the tag that
   * starts at `p` if there is one (the optional group is greedy), at `p` otherwise.
   */
  ghost predicate GroupStartsAt(s: string, p: int, c: int) {
    (c == p || TagSpan(s, p, c)) && forall q :: TagSpan(s, p, q) ==> q == c
  }

  /** `k` is the first fence at or after `c`: where the lazy group `([\s\S]*?)` stops. */
  ghost predicate ClosesBlock(s: string, c: int, k: int) {
    c <= k && FenceAt(s, k) && forall j :: c <= j < k ==> !FenceAt(s, j)
  }

  /** The first fence at or after `from`. */
  function FindFence(s: string, from: nat): (r: Option<nat>)
    decreases |s| - from
    ensures r.Some? ==> ClosesBlock(s, from, r.value)
    ensures r.None? ==> forall j :: from <= j ==> !FenceAt(s, j)
  {
    if from + 3 > |s| then None
    else if FenceAt(s, from) then Some(from)
    else FindFence(s, from + 1)
  }

  /** The end of the run of word characters that starts at `p`. */
  function WordRunEnd(s: string, p: nat): (q: nat)
    requires p <= |s|
    decreases |s| - p
    ensures p <= q <= |s|
    ensures forall j :: p <= j < q ==> IsWordChar(s[j])
    ensures q < |s| ==> !IsWordChar(s[q])
  {
    if p < |s| && IsWordChar(s[p]) then WordRunEnd(s, p + 1) else p
  }

  /** Where the captured group begins after the opening fence at `i`. */
  function GroupStart(s: string, i: nat): (c: nat)
    requires FenceAt(s, i)
    ensures GroupStartsAt(s, i + 3, c)
  {
    var q := WordRunEnd(s, i + 3);
    if q > i + 3 && q < |s| && s[q] == '\n' then q + 1 else i + 3
  }

  /**
   * `extractContent(str)`: the trimmed content of the first fenced block, or
   * `str` itself when there is no complete block or its content is empty.
   */
  function ExtractContent(s: string): (r: string)
  {
    match FindFence(s, 0)
    case None => s
    case Some(i) =>
      var c := GroupStart(s, i);
      match FindFence(s, c)
      case None => s
      case Some(k) => if k == c then s else Trim(s[c..k])
  }

  /**
   * Whatever the input, the result is the input itself or the trimmed, non-empty
   * text between the regular expression's opening fence (and tag) and the first
   * closing fence after it.
   */
  lemma ExtractedIsFencedText(s: string)
    ensures var r := ExtractContent(s);
            r == s || exists i, c, k :: OpensBlock(s, i, c) && ClosesBlock(s, c, k) && c < k && r == Trim(s[c..k])
  {
    match FindFence(s, 0)
    case None =>
    case Some(i) =>
      var c := GroupStart(s, i);
      match FindFence(s, c)
      case None =>
      case Some(k) =>
        if k != c {
          assert OpensBlock(s, i, c);
          assert ExtractContent(s) == Trim(s[c..k]);
        }
  }

  /** With an opening fence, an optional tag, non-empty content and a closing fence, the content comes back trimmed. */
  lemma ExtractsLeftmostBlock(s: string, i: nat, c: nat, k: nat)
    requires OpensBlock(s, i, c) && ClosesBlock(s, c, k) && c < k
    ensures ExtractContent(s) == Trim(s[c..k])
  {
    assert FindFence(s, 0) == Some(i);
    assert GroupStart(s, i) == c;
    assert FindFence(s, c) == Some(k);
  }

  /**
   * `ExtractsLeftmostBlock` for a content already known by value; it keeps the
   * slice away from the callers' concatenations.
   */
  lemma ExtractsBody(s: string, i: nat, c: nat, k: nat, body: string)
    requires OpensBlock(s, i, c) && ClosesBlock(s, c, k) && c < k && s[c..k] == body
    ensures ExtractContent(s) == Trim(body)
  {
    ExtractsLeftmostBlock(s, i, c, k);
  }

  /** A block whose content is empty (such as "```json\n```") leaves the input unchanged. */
  lemma EmptyBlockUnchanged(s: string, i: nat, c: nat)
    requires OpensBlock(s, i, c) && FenceAt(s, c)
    ensures ExtractContent(s) == s
  {
    assert FindFence(s, 0) == Some(i);
    assert GroupStart(s, i) == c;
    assert FindFence(s, c) == Some(c);
  }

  /** An opening fence that is never closed leaves the input unchanged. */
  lemma UnclosedBlockUnchanged(s: string, i: nat, c: nat)
    requires OpensBlock(s, i, c) && forall k :: c <= k ==> !FenceAt(s, k)
    ensures ExtractContent(s) == s
  {
    assert FindFence(s, 0) == Some(i);
    assert GroupStart(s, i) == c;
  }

  /** Without two fences three or more characters apart there is nothing to extract. */
  lemma NoFencePairUnchanged(s: string)
    requires forall i, k :: FenceAt(s, i) && FenceAt(s, k) ==> k < i + 3
    ensures ExtractContent(s) == s
  {
    match FindFence(s, 0)
    case None =>
    case Some(i) =>
      var c := GroupStart(s, i);
      match FindFence(s, c)
      case None =>
      case Some(k) =>
        assert false;
  }

  /** The fences of a block wrapped in backtick-free text: the opening one is the leftmost, the closing one ends the body. */
  lemma WrappedBlockFences(s: string, pre: string, lang: string, body: string, post: string, nl: nat)
    requires s == pre + "```" + lang + "\n" + body + "```" + post
    requires nl == |pre| + 3 + |lang|
    requires forall j :: 0 <= j < |pre| ==> pre[j] != '`'
    requires forall j :: 0 <= j < |lang| ==> IsWordChar(lang[j])
    requires forall j :: 0 <= j < |body| ==> body[j] != '`'
    ensures LeftmostFence(s, |pre|) && ClosesBlock(s, nl + 1, nl + 1 + |body|)
    ensures s[nl] == '\n' && s[nl + 1..nl + 1 + |body|] == body
    ensures lang != [] ==> OpensBlock(s, |pre|, nl + 1)
  {
    var i := |pre|;
    var k := nl + 1 + |body|;
    assert s[i] == '`' && s[i + 1] == '`' && s[i + 2] == '`';
    forall j | 0 <= j < i ensures !FenceAt(s, j) {
      assert s[j] == pre[j];
    }
    assert s[k] == '`' && s[k + 1] == '`' && s[k + 2] == '`';
    forall j | nl + 1 <= j < k ensures !FenceAt(s, j) {
      assert s[j] == body[j - nl - 1];
    }
    assert s[nl + 1..k] == body;
    forall j | i + 3 <= j < nl ensures IsWordChar(s[j]) {
      assert s[j] == lang[j - i - 3];
    }
    if lang != [] {
      assert TagSpan(s, i + 3, nl + 1);
      assert GroupStart(s, i) == nl + 1;
    }
  }

  /** A block whose opening fence carries a language tag. */
  lemma ExtractsTaggedBlock(s: string, pre: string, lang: string, body: string, post: string)
    requires s == pre + "```" + lang + "\n" + body + "```" + post
    requires forall j :: 0 <= j < |pre| ==> pre[j] != '`'
    requires forall j :: 0 <= j < |lang| ==> IsWordChar(lang[j])
    requires forall j :: 0 <= j < |body| ==> body[j] != '`'
    requires lang != [] && body != []
    ensures ExtractContent(s) == Trim(body)
  {
    var nl := |pre| + 3 + |lang|;
    var k := nl + 1 + |body|;
    WrappedBlockFences(s, pre, lang, body, post, nl);
    ExtractsBody(s, |pre|, nl + 1, k, body);
  }

  /** A block whose opening fence is followed directly by a newline: the newline is part of the content and is trimmed away. */
  lemma ExtractsUntaggedBlock(s: string, pre: string, body: string, post: string)
    requires s == pre + "```" + "" + "\n" + body + "```" + post
    requires forall j :: 0 <= j < |pre| ==> pre[j] != '`'
    requires forall j :: 0 <= j < |body| ==> body[j] != '`'
    ensures ExtractContent(s) == Trim(body)
  {
    var i := |pre|;
    var k := i + 4 + |body|;
    WrappedBlockFences(s, pre, "", body, post, i + 3);
    assert s[i + 3..k] == "\n" + body by {
      assert s[i + 3..k] == [s[i + 3]] + s[i + 4..k];
    }
    assert !IsWordChar(s[i + 3]);
    assert !FenceAt(s, i + 3);
    ExtractsLeftmostBlock(s, i, i + 3, k);
    TrimSkipsLeadingWhitespace("\n", body);
  }

  /**
   * The shape a model's answer usually has: prose without backticks, a fenced
   * block with an optional language tag, and anything after it. The block's
   * body comes back trimmed.
   */
  lemma ExtractsWrappedBlock(pre: string, lang: string, body: string, post: string)
    requires forall j :: 0 <= j < |pre| ==> pre[j] != '`'
    requires forall j :: 0 <= j < |lang| ==> IsWordChar(lang[j])
    requires forall j :: 0 <= j < |body| ==> body[j] != '`'
    requires lang == [] || body != []
    ensures ExtractContent(pre + "```" + lang + "\n" + body + "```" + post) == Trim(body)
  {
    var s := pre + "```" + lang + "\n" + body + "```" + post;
    if lang == [] {
      ExtractsUntaggedBlock(s, pre, body, post);
    } else {
      ExtractsTaggedBlock(s, pre, lang, body, post);
    }
  }

  // ---------------------------------------------------------------------------
  // createChatCompletion
  // ---------------------------------------------------------------------------

  const Gpt4 := "gpt-4"
  const Gpt4Turbo := "gpt-4-t"

  /** `options.model || "gpt-4"`: a missing or empty model name falls back to "gpt-4". */
  function ResolveModel(model: Option<string>): (m: string)
    ensures m != ""
  {
    if Truthy(model) then model.value else Gpt4
  }

  /** The deployment a model name is sent to. */
  function DeploymentFor(model: string): string {
    if model == Gpt4 then Gpt4 else Gpt4Turbo
  }

  /** Whether the answer of a deployment has its code fence stripped. */
  predicate ShouldClean(deployment: string) {
    deployment == Gpt4Turbo
  }

  /** Routing: "gpt-4" (or no model) goes to "gpt-4", every other name to "gpt-4-t", and only "gpt-4-t" is cleaned. */
  lemma Routing(model: Option<string>)
    ensures DeploymentFor(ResolveModel(model)) == Gpt4 <==> !Truthy(model) || model.value == Gpt4
    ensures DeploymentFor(ResolveModel(model)) == Gpt4Turbo <==> Truthy(model) && model.value != Gpt4
    ensures ShouldClean(DeploymentFor(ResolveModel(model))) <==> DeploymentFor(ResolveModel(model)) != Gpt4
    ensures ResolveModel(Some(ResolveModel(model))) == ResolveModel(model)
  {
  }

  datatype Message = Message(role: string, content: string)

  /** `choice.delta?.content`: missing, null, or a piece of text. */
  datatype Delta = Undefined | Null | Content(text: string)

  datatype Choice = Choice(delta: Delta)

  datatype Event = Event(choices: seq<Choice>)

  /** How a stream ends: after its last event, or with an error raised while it is read. */
  datatype StreamEnd = Finished | Broken(error: string)

  /**
   * What the provider does for one call: reject the call, or stream events that
   * end one way or the other. An error carries its `JSON.stringify` text.
   */
  datatype Attempt = CallFailed(error: string) | Streamed(events: seq<Event>, end: StreamEnd)

  /** What is sent to the provider: the deployment, the messages and the temperature. */
  datatype Request = Request(deployment: string, messages: seq<Message>, temperature: real)

  /** The two errors `createChatCompletion` throws. */
  datatype CompletionError = ListFailed(detail: string) | ParseFailed(detail: string) {
    function ErrorMessage(): string {
      match this
      case ListFailed(d) => "listChatCompletions failed: " + d
      case ParseFailed(d) => "Error parsing JSON response: " + d
    }
  }

  /**
   * The text a delta adds to `responseString`. Only content reaches the text: a
   * null delta is first handed to `process.stdout.write`, which throws on `null`.
   */
  function DeltaText(d: Delta): string {
    if d.Content? then d.text else ""
  }

  /**
   * The `JSON.stringify` text of the error Node's `process.stdout.write(null)`
   * throws (its only enumerable property is its code).
   */
  const NullChunkError := "{\"code\":\"ERR_STREAM_NULL_VALUES\"}"

  /** The position of the first null delta, or the length when there is none. */
  function FirstNull(ds: seq<Delta>): (k: nat)
    ensures k <= |ds| && forall j :: 0 <= j < k ==> ds[j] != Null
    ensures k < |ds| ==> ds[k] == Null
  {
    if ds == [] || ds[0] == Null then 0 else 1 + FirstNull(ds[1..])
  }

  /** `FirstNull` is the only position with its two properties. */
  lemma FirstNullUnique(ds: seq<Delta>, k: nat)
    requires k <= |ds| && forall j :: 0 <= j < k ==> ds[j] != Null
    requires k < |ds| ==> ds[k] == Null
    ensures FirstNull(ds) == k
  {
  }

  /** The deltas handled before the first null one, which ends the attempt. */
  function UntilNull(ds: seq<Delta>): (r: seq<Delta>)
    ensures |r| <= |ds| && r == ds[..|r|] && Null !in r
    ensures |r| < |ds| ==> ds[|r|] == Null
  {
    ds[..FirstNull(ds)]
  }

  /** Without a null delta nothing is cut off. */
  lemma NoNullKeepsAll(ds: seq<Delta>)
    requires Null !in ds
    ensures UntilNull(ds) == ds
  {
    FirstNullUnique(ds, |ds|);
  }

  /** The deltas handled from `a + b`: those of `b` count only when `a` holds no null. */
  lemma UntilNullAppend(a: seq<Delta>, b: seq<Delta>)
    ensures UntilNull(a + b) == if Null in a then UntilNull(a) else a + UntilNull(b)
  {
    var k := FirstNull(a);
    if Null in a {
      var j :| 0 <= j < |a| && a[j] == Null;
      assert k < |a|;
      FirstNullUnique(a + b, k);
      assert (a + b)[..k] == a[..k];
    } else {
      FirstNullUnique(a, |a|);
      var m := FirstNull(b);
      FirstNullUnique(a + b, |a| + m);
      assert (a + b)[..|a| + m] == a + b[..m];
    }
  }

  /** The deltas of one event's choices that are not undefined, in choice order. */
  function ChoiceDeltas(choices: seq<Choice>): (ds: seq<Delta>)
    ensures |ds| <= |choices|
    ensures forall k :: 0 <= k < |ds| ==> ds[k] != Undefined
  {
    if choices == [] then []
    else
      var d := choices[|choices| - 1].delta;
      ChoiceDeltas(choices[..|choices| - 1]) + (if d == Undefined then [] else [d])
  }

  /** The deltas of a stream that are not undefined, in event order and then choice order. */
  function StreamDeltas(events: seq<Event>): (ds: seq<Delta>)
    ensures forall k :: 0 <= k < |ds| ==> ds[k] != Undefined
  {
    if events == [] then []
    else StreamDeltas(events[..|events| - 1]) + ChoiceDeltas(events[|events| - 1].choices)
  }

  /** The text the deltas add up to. */
  function Concat(ds: seq<Delta>): string {
    if ds == [] then "" else Concat(ds[..|ds| - 1]) + DeltaText(ds[|ds| - 1])
  }

  /** Reading more choices adds their deltas after the ones already read. */
  lemma {:induction false} ChoiceDeltasAppend(a: seq<Choice>, b: seq<Choice>)
    ensures ChoiceDeltas(a + b) == ChoiceDeltas(a) + ChoiceDeltas(b)
    decreases |b|
  {
    if b == [] {
      assert a + b == a;
    } else {
      var b' := b[..|b| - 1];
      assert (a + b)[..|a + b| - 1] == a + b';
      assert (a + b)[|a + b| - 1] == b[|b| - 1];
      ChoiceDeltasAppend(a, b');
    }
  }

  /** Reading more events adds their deltas after the ones already read. */
  lemma {:induction false} StreamDeltasAppend(a: seq<Event>, b: seq<Event>)
    ensures StreamDeltas(a + b) == StreamDeltas(a) + StreamDeltas(b)
    decreases |b|
  {
    if b == [] {
      assert a + b == a;
    } else {
      var b' := b[..|b| - 1];
      assert (a + b)[..|a + b| - 1] == a + b';
      assert (a + b)[|a + b| - 1] == b[|b| - 1];
      StreamDeltasAppend(a, b');
    }
  }

  /** The text of a sequence of deltas is the text of its parts, in order. */
  lemma {:induction false} ConcatAppend(a: seq<Delta>, b: seq<Delta>)
    ensures Concat(a + b) == Concat(a) + Concat(b)
    decreases |b|
  {
    if b == [] {
      assert a + b == a;
    } else {
      var b' := b[..|b| - 1];
      assert (a + b)[..|a + b| - 1] == a + b';
      assert (a + b)[|a + b| - 1] == b[|b| - 1];
      ConcatAppend(a, b');
    }
  }

  /** The accumulated text is that of the first event's choices followed by that of the rest of the stream. */
  lemma StreamTextInEventOrder(e: Event, rest: seq<Event>)
    ensures Concat(StreamDeltas([e] + rest)) == Concat(ChoiceDeltas(e.choices)) + Concat(StreamDeltas(rest))
  {
    StreamDeltasAppend([e], rest);
    assert [e][..0] == [];
    assert StreamDeltas([e]) == ChoiceDeltas(e.choices);
    ConcatAppend(ChoiceDeltas(e.choices), StreamDeltas(rest));
  }

  /** What one provider call leaves: the accumulated text or the error that ended it, and the deltas forwarded on the way. */
  datatype Collected = Collected(text: Result<string, string>, forwarded: seq<Delta>)

  function Collect(a: Attempt): (c: Collected)
    ensures Null !in c.forwarded
    ensures c.text.Ok? ==> c.text.value == Concat(c.forwarded)
  {
    match a
    case CallFailed(e) => Collected(Err(e), [])
    case Streamed(events, end) =>
      var ds := StreamDeltas(events);
      if Null in ds then Collected(Err(NullChunkError), UntilNull(ds))
      else
        NoNullKeepsAll(ds);
        if end.Broken? then Collected(Err(end.error), ds) else Collected(Ok(Concat(ds)), ds)
  }

  /** The text after the optional fence stripping of `deployment`. */
  function Cleaned(deployment: string, s: string): string {
    if ShouldClean(deployment) then ExtractContent(s) else s
  }

  /** One run of `createChatCompletion`: the provider calls it made, the deltas it forwarded, and what it returned or threw. */
  datatype Run = Run(attempts: nat, forwarded: seq<Delta>, result: Result<Json, CompletionError>)

  /**
   * What `createChatCompletion` does when its provider calls start with the
   * `n`-th answer of the oracle: one call, then what becomes of its cleaned text.
   */
  function Completion(answer: nat -> Attempt, n: nat, deployment: string, jsonParse: bool,
                      retry: bool, parse: string -> Result<Json, string>): (run: Run)
    decreases retry, 1
    ensures 1 <= run.attempts <= 2
    ensures !retry ==> run.attempts == 1
  {
    var got := Collect(answer(n));
    match got.text
    case Err(e) => Run(1, got.forwarded, Err(ListFailed(e)))
    case Ok(raw) =>
      var rest := AfterText(answer, n, Cleaned(deployment, raw), deployment, jsonParse, retry, parse);
      Run(1 + rest.attempts, got.forwarded + rest.forwarded, rest.result)
  }

  /**
   * What follows once the `n`-th call's text is in: the calls still to make, what
   * they forward, and the result. A string result is `JString`; a parsed result is
   * whatever `parse` produced. A failed parse is retried once, with retry off.
   */
  function AfterText(answer: nat -> Attempt, n: nat, text: string, deployment: string, jsonParse: bool,
                     retry: bool, parse: string -> Result<Json, string>): (rest: Run)
    decreases retry, 0
    ensures rest.attempts <= 1
    ensures rest.attempts == 1 <==> retry && jsonParse && parse(text).Err?
  {
    if !jsonParse then Run(0, [], Ok(JString(text)))
    else
      match parse(text)
      case Ok(v) => Run(0, [], Ok(v))
      case Err(m) =>
        if !retry then Run(0, [], Err(ParseFailed(m)))
        else
          var again := Completion(answer, n + 1, deployment, jsonParse, false, parse);
          Run(1, again.forwarded, again.result)
  }

  /** A second provider call happens exactly when retry is on and the first answer streamed fine but did not parse. */
  lemma SecondCallOnlyOnParseFailure(answer: nat -> Attempt, n: nat, deployment: string, jsonParse: bool,
                                     retry: bool, parse: string -> Result<Json, string>)
    ensures var got := Collect(answer(n));
            Completion(answer, n, deployment, jsonParse, retry, parse).attempts == 2
            <==> retry && jsonParse && got.text.Ok? && parse(Cleaned(deployment, got.text.value)).Err?
  {
  }

  /** A failed call or stream throws "listChatCompletions failed" at once: no cleaning, no parsing, no retry. */
  lemma ProviderFailureIsFinal(answer: nat -> Attempt, n: nat, deployment: string, jsonParse: bool,
                               retry: bool, parse: string -> Result<Json, string>)
    requires Collect(answer(n)).text.Err?
    ensures var run := Completion(answer, n, deployment, jsonParse, retry, parse);
            run.attempts == 1 && run.result == Err(ListFailed(Collect(answer(n)).text.error))
            && run.result.error.ErrorMessage() == "listChatCompletions failed: " + Collect(answer(n)).text.error
            && run.forwarded == Collect(answer(n)).forwarded
  {
  }

  /**
   * A null delta makes `process.stdout.write` throw inside the `try`: the call ends
   * with "listChatCompletions failed", after forwarding only the deltas before it.
   */
  lemma NullDeltaFails(answer: nat -> Attempt, n: nat, deployment: string, jsonParse: bool,
                       retry: bool, parse: string -> Result<Json, string>)
    requires answer(n).Streamed? && Null in StreamDeltas(answer(n).events)
    ensures var run := Completion(answer, n, deployment, jsonParse, retry, parse);
            && run.attempts == 1
            && run.result == Err(ListFailed(NullChunkError))
            && run.result.error.ErrorMessage() == "listChatCompletions failed: " + NullChunkError
            && run.forwarded == UntilNull(StreamDeltas(answer(n).events))
            && Null !in run.forwarded
  {
  }

  /** A stream with a content choice then a null one: the call throws, after forwarding the content only. */
  lemma NullAfterContentThrows(parse: string -> Result<Json, string>)
    ensures var events := [Event([Choice(Content("{\"a\":1}")), Choice(Null)])];
            var run := Completion((k: nat) => Streamed(events, Finished), 0, Gpt4, false, false, parse);
            run.result == Err(ListFailed(NullChunkError)) && run.forwarded == [Content("{\"a\":1}")]
  {
    var choices := [Choice(Content("{\"a\":1}")), Choice(Null)];
    var events := [Event(choices)];
    assert choices[..1][..0] == [];
    assert ChoiceDeltas(choices) == [Content("{\"a\":1}"), Null];
    assert events[..0] == [];
    assert StreamDeltas(events) == [Content("{\"a\":1}"), Null];
    assert FirstNull([Content("{\"a\":1}"), Null]) == 1;
    NullDeltaFails((k: nat) => Streamed(events, Finished), 0, Gpt4, false, false, parse);
  }

  /** Without `jsonParse` the result is the (possibly cleaned) accumulated text and `parse` is never consulted. */
  lemma TextResultIgnoresParse(answer: nat -> Attempt, n: nat, deployment: string, retry: bool,
                               parse: string -> Result<Json, string>, parse': string -> Result<Json, string>)
    requires Collect(answer(n)).text.Ok?
    ensures var run := Completion(answer, n, deployment, false, retry, parse);
            run == Completion(answer, n, deployment, false, retry, parse')
            && run.result == Ok(JString(Cleaned(deployment, Concat(Collect(answer(n)).forwarded))))
  {
    match answer(n)
    case Streamed(events, Finished) =>
  }

  /** With `jsonParse`, a text that parses is returned parsed; one that does not throw unless retry is on. */
  lemma ParseOutcome(answer: nat -> Attempt, n: nat, deployment: string, retry: bool,
                     parse: string -> Result<Json, string>)
    requires Collect(answer(n)).text.Ok?
    ensures var text := Cleaned(deployment, Collect(answer(n)).text.value);
            var run := Completion(answer, n, deployment, true, retry, parse);
            && (parse(text).Ok? ==> run.result == Ok(parse(text).value))
            && (parse(text).Err? && !retry ==>
                  && run.result == Err(ParseFailed(parse(text).error))
                  && run.result.error.ErrorMessage() == "Error parsing JSON response: " + parse(text).error)
            && (parse(text).Err? && retry ==>
                  run.result == Completion(answer, n + 1, deployment, true, false, parse).result)
  {
  }

  /** `n` copies of `x`. */
  function Repeat<T>(x: T, n: nat): (r: seq<T>)
    ensures |r| == n && forall j :: 0 <= j < n ==> r[j] == x
  {
    if n == 0 then [] else [x] + Repeat(x, n - 1)
  }

  // ---------------------------------------------------------------------------
  // The objects createChatCompletion works with
  // ---------------------------------------------------------------------------

  /** The caller's `options` object; `createChatCompletion` writes the resolved model back into it. */
  class Options {
    var model: Option<string>
    var temperature: real

    constructor (model: Option<string>, temperature: real)
      ensures this.model == model && this.temperature == temperature
    {
      this.model := model;
      this.temperature := temperature;
    }

    /** The default argument `{ temperature: 0.2, model: "gpt-4" }`. */
    constructor Default()
      ensures model == Some(Gpt4) && temperature == 0.2
    {
      model := Some(Gpt4);
      temperature := 0.2;
    }
  }

  /** The `onStream` callback, as the list of deltas it has been handed. */
  class TokenSink {
    var received: seq<Delta>

    constructor ()
      ensures received == []
    {
      received := [];
    }

    method Accept(d: Delta)
      modifies this
      ensures received == old(received) + [d]
    {
      received := received + [d];
    }
  }

  /** The completion service. Each call is answered by the oracle according to how many calls came before it. */
  class Provider {
    const answer: nat -> Attempt
    var log: seq<Request>

    constructor (answer: nat -> Attempt)
      ensures this.answer == answer && log == []
    {
      this.answer := answer;
      log := [];
    }

    /** `client.streamChatCompletions(deploymentId, messages, { temperature, stream: true })`. */
    method StreamChatCompletions(deployment: string, messages: seq<Message>, temperature: real) returns (a: Attempt)
      modifies this
      ensures log == old(log) + [Request(deployment, messages, temperature)]
      ensures a == answer(|old(log)|)
    {
      a := answer(|log|);
      log := log + [Request(deployment, messages, temperature)];
    }
  }

  /** One more choice read: its delta is appended unless it is undefined. */
  lemma ChoiceDeltasStep(choices: seq<Choice>, j: nat)
    requires j < |choices|
    ensures ChoiceDeltas(choices[..j + 1])
            == ChoiceDeltas(choices[..j]) + (if choices[j].delta == Undefined then [] else [choices[j].delta])
  {
    assert choices[..j + 1][..j] == choices[..j];
  }

  /** One more event read: its choices' deltas are appended. */
  lemma StreamDeltasStep(events: seq<Event>, i: nat)
    requires i < |events|
    ensures StreamDeltas(events[..i + 1]) == StreamDeltas(events[..i]) + ChoiceDeltas(events[i].choices)
  {
    assert events[..i + 1][..i] == events[..i];
  }

  /** One more delta appended to the text. */
  lemma ConcatStep(ds: seq<Delta>, d: Delta)
    ensures Concat(ds + [d]) == Concat(ds) + DeltaText(d)
  {
    assert (ds + [d])[..|ds|] == ds;
  }

  /** A null delta in `mid`, after a null-free `pre`, cuts off everything from it on. */
  lemma NullInMiddle(pre: seq<Delta>, mid: seq<Delta>, rest: seq<Delta>)
    requires Null !in pre && Null in mid
    ensures Null in pre + mid + rest
    ensures UntilNull(pre + mid + rest) == pre + UntilNull(mid)
  {
    assert Null in pre + mid;
    UntilNullAppend(pre + mid, rest);
    UntilNullAppend(pre, mid);
  }

  /** A null choice at `j` ends the deltas handled from an event: only those before it count. */
  lemma NullCutsChoices(choices: seq<Choice>, j: nat)
    requires j < |choices| && choices[j].delta == Null && Null !in ChoiceDeltas(choices[..j])
    ensures Null in ChoiceDeltas(choices)
    ensures UntilNull(ChoiceDeltas(choices)) == ChoiceDeltas(choices[..j])
  {
    var pre := ChoiceDeltas(choices[..j]);
    var rest := ChoiceDeltas(choices[j + 1..]);
    ChoiceDeltasStep(choices, j);
    ChoiceDeltasAppend(choices[..j + 1], choices[j + 1..]);
    SplitAt(choices, j + 1);
    assert ChoiceDeltas(choices) == pre + [Null] + rest;
    NullInMiddle(pre, [Null], rest);
    assert UntilNull([Null]) == [];
  }

  /** A null delta in event `i` ends the deltas handled from the stream within that event. */
  lemma NullCutsStream(events: seq<Event>, i: nat)
    requires i < |events| && Null !in StreamDeltas(events[..i]) && Null in ChoiceDeltas(events[i].choices)
    ensures Null in StreamDeltas(events)
    ensures UntilNull(StreamDeltas(events)) == StreamDeltas(events[..i]) + UntilNull(ChoiceDeltas(events[i].choices))
  {
    var pre := StreamDeltas(events[..i]);
    var more := ChoiceDeltas(events[i].choices);
    var rest := StreamDeltas(events[i + 1..]);
    StreamDeltasStep(events, i);
    StreamDeltasAppend(events[..i + 1], events[i + 1..]);
    SplitAt(events, i + 1);
    assert StreamDeltas(events) == pre + more + rest;
    NullInMiddle(pre, more, rest);
  }

  /** A sequence is its prefix followed by its suffix; stated apart to keep the callers' proofs small. */
  lemma SplitAt<T>(s: seq<T>, k: nat)
    requires k <= |s|
    ensures s[..k] + s[k..] == s
  {
  }

  /** Concatenation regroups; stated apart to keep the callers' proofs small. */
  lemma AppendAssociates<T>(a: seq<T>, b: seq<T>, c: seq<T>)
    ensures a + b + c == a + (b + c)
  {
  }

  /**
   * The inner `for (const choice of event.choices)` loop: the text one event adds,
   * and whether a null delta threw, which leaves both loops at once.
   */
  method ReadChoices(choices: seq<Choice>, onStream: TokenSink?) returns (added: string, failed: bool)
    modifies onStream
    ensures failed <==> Null in ChoiceDeltas(choices)
    ensures added == Concat(UntilNull(ChoiceDeltas(choices)))
    ensures onStream != null ==> onStream.received == old(onStream.received) + UntilNull(ChoiceDeltas(choices))
  {
    added := "";
    failed := false;
    ghost var origin := if onStream != null then onStream.received else [];
    ghost var seen: seq<Delta> := [];
    var j := 0;
    while j < |choices|
      invariant 0 <= j <= |choices|
      invariant seen == ChoiceDeltas(choices[..j]) && Null !in seen
      invariant added == Concat(seen)
      invariant onStream != null ==> onStream.received == origin + seen
    {
      var delta := choices[j].delta;
      ChoiceDeltasStep(choices, j);
      if delta == Null {
        NullCutsChoices(choices, j);
        failed := true;
        return;
      }
      if delta != Undefined {
        ConcatStep(seen, delta);
        added := added + DeltaText(delta);
        if onStream != null {
          onStream.Accept(delta);
          AppendAssociates(origin, seen, [delta]);
        }
        seen := seen + [delta];
      } else {
        assert seen + [] == seen;
      }
      j := j + 1;
    }
    assert choices[..j] == choices;
    NoNullKeepsAll(seen);
  }

  /**
   * The `for await (const event of events)` loop that builds `responseString`,
   * left at the first null delta.
   */
  method ReadStream(events: seq<Event>, onStream: TokenSink?) returns (responseString: string, failed: bool)
    modifies onStream
    ensures failed <==> Null in StreamDeltas(events)
    ensures responseString == Concat(UntilNull(StreamDeltas(events)))
    ensures onStream != null ==> onStream.received == old(onStream.received) + UntilNull(StreamDeltas(events))
  {
    responseString := "";
    failed := false;
    ghost var origin := if onStream != null then onStream.received else [];
    ghost var seen: seq<Delta> := [];
    var i := 0;
    while i < |events|
      invariant 0 <= i <= |events|
      invariant seen == StreamDeltas(events[..i]) && Null !in seen
      invariant responseString == Concat(seen)
      invariant onStream != null ==> onStream.received == origin + seen
    {
      ghost var more := ChoiceDeltas(events[i].choices);
      var added, threw := ReadChoices(events[i].choices, onStream);
      StreamDeltasStep(events, i);
      ConcatAppend(seen, UntilNull(more));
      AppendAssociates(origin, seen, UntilNull(more));
      responseString := responseString + added;
      if threw {
        NullCutsStream(events, i);
        failed := true;
        return;
      }
      NoNullKeepsAll(more);
      seen := seen + more;
      i := i + 1;
    }
    assert events[..i] == events;
    NoNullKeepsAll(seen);
  }

  /**
   * The `try` block of `createChatCompletion`: one provider call and the reading
   * of its stream. The error is the one the `catch` turns into "listChatCompletions failed".
   */
  method StreamResponse(deployment: string, messages: seq<Message>, temperature: real,
                        onStream: TokenSink?, provider: Provider)
    returns (got: Result<string, string>)
    modifies onStream, provider
    ensures var collected := Collect(provider.answer(|old(provider.log)|));
            && got == collected.text
            && provider.log == old(provider.log) + [Request(deployment, messages, temperature)]
            && (onStream != null ==> onStream.received == old(onStream.received) + collected.forwarded)
  {
    var attempt := provider.StreamChatCompletions(deployment, messages, temperature);
    match attempt {
      case CallFailed(e) =>
        got := Err(e);
      case Streamed(events, end) =>
        var responseString, failed := ReadStream(events, onStream);
        if !failed {
          NoNullKeepsAll(StreamDeltas(events));
        }
        got := if failed then Err(NullChunkError) else if end.Broken? then Err(end.error) else Ok(responseString);
    }
  }

  /**
   * `createChatCompletion(messages, jsonParse, options, retry, onStream)`. A null
   * `options` is the omitted argument and a null `onStream` the missing callback.
   */
  method CreateChatCompletion(messages: seq<Message>, jsonParse: bool, options: Options?, retry: bool,
                              onStream: TokenSink?, provider: Provider, parse: string -> Result<Json, string>)
    returns (r: Result<Json, CompletionError>)
    modifies options, onStream, provider
    decreases retry, 2
    ensures options != null ==> options.model == Some(ResolveModel(old(options.model)))
                                && options.temperature == old(options.temperature)
    ensures var model := if options == null then Gpt4 else ResolveModel(old(options.model));
            var temperature := if options == null then 0.2 else options.temperature;
            var deployment := DeploymentFor(model);
            var run := Completion(provider.answer, |old(provider.log)|, deployment, jsonParse, retry, parse);
            && r == run.result
            && provider.log == old(provider.log) + Repeat(Request(deployment, messages, temperature), run.attempts)
            && (onStream != null ==> onStream.received == old(onStream.received) + run.forwarded)
  {
    var opts := options;
    if opts == null {
      opts := new Options.Default();
    }
    opts.model := Some(ResolveModel(opts.model));
    r := CompleteResolved(messages, jsonParse, opts, retry, onStream, provider, parse);
  }

  /**
   * The rest of `createChatCompletion` once the resolved model is written back:
   * routing, the provider call, cleaning, parsing and the one re-issue.
   */
  method CompleteResolved(messages: seq<Message>, jsonParse: bool, opts: Options, retry: bool,
                          onStream: TokenSink?, provider: Provider, parse: string -> Result<Json, string>)
    returns (r: Result<Json, CompletionError>)
    requires opts.model.Some? && opts.model.value != ""
    modifies opts, onStream, provider
    decreases retry, 1
    ensures opts.model == old(opts.model) && opts.temperature == old(opts.temperature)
    ensures var deployment := DeploymentFor(opts.model.value);
            var run := Completion(provider.answer, |old(provider.log)|, deployment, jsonParse, retry, parse);
            && r == run.result
            && provider.log == old(provider.log) + Repeat(Request(deployment, messages, opts.temperature), run.attempts)
            && (onStream != null ==> onStream.received == old(onStream.received) + run.forwarded)
  {
    var deploymentId := DeploymentFor(opts.model.value);
    var shouldCleanResponse := ShouldClean(deploymentId);
    ghost var n := |provider.log|;
    ghost var request := Request(deploymentId, messages, opts.temperature);
    var got := StreamResponse(deploymentId, messages, opts.temperature, onStream, provider);
    if got.Err? {
      return Err(ListFailed(got.error));
    }
    var responseString := got.value;
    if shouldCleanResponse {
      responseString := StripFences(deploymentId, responseString);
    }
    if !jsonParse {
      return Ok(JString(responseString));
    }
    var parsed := parse(responseString);
    if parsed.Ok? {
      return Ok(parsed.value);
    }
    if !retry {
      return Err(ParseFailed(parsed.error));
    }
    r := Reissue(messages, opts, onStream, provider, parse);
    ghost var again := Completion(provider.answer, n + 1, deploymentId, true, false, parse);
    assert Repeat(request, 1 + again.attempts) == [request] + [request];
    if onStream != null {
      AppendAssociates(old(onStream.received), Collect(provider.answer(n)).forwarded, again.forwarded);
    }
  }

  /** The fence stripping `createChatCompletion` applies on the turbo deployment. */
  method StripFences(deployment: string, s: string) returns (t: string)
    requires ShouldClean(deployment)
    ensures t == Cleaned(deployment, s)
  {
    t := ExtractContent(s);
  }

  /**
   * The re-issue after a failed parse: the same messages and options again, with
   * JSON parsing on and retry off.
   */
  method Reissue(messages: seq<Message>, opts: Options, onStream: TokenSink?, provider: Provider,
                 parse: string -> Result<Json, string>)
    returns (r: Result<Json, CompletionError>)
    requires opts.model.Some? && opts.model.value != ""
    modifies opts, onStream, provider
    decreases true, 0
    ensures opts.model == old(opts.model) && opts.temperature == old(opts.temperature)
    ensures var deployment := DeploymentFor(opts.model.value);
            var run := Completion(provider.answer, |old(provider.log)|, deployment, true, false, parse);
            && r == run.result
            && provider.log == old(provider.log) + [Request(deployment, messages, opts.temperature)]
            && (onStream != null ==> onStream.received == old(onStream.received) + run.forwarded)
  {
    r := CreateChatCompletion(messages, true, opts, false, onStream, provider, parse);
  }
}
