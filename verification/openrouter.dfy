/**
  The OpenRouter integration: the prompt sent to the model, the request preconditions and
  defaults, the defensive parser that turns the model's free text into test cases, and
  the mapping of the model catalogue. The HTTP exchanges themselves are inputs.
 */
module OpenRouter {
  import opened Wrappers
  import opened Json
  import opened Decimal
  import opened Lines
  import Extraction

  const ParseFailure := "Failed to parse generated test cases"
  const ApiKeyRequired := "OpenRouter API key is required"
  const DefaultModel := "openai/gpt-4"
  const SystemInstruction := "You are an expert QA engineer specializing in API test automation. Generate comprehensive, SMART test cases based on OpenAPI specifications."

  /** One API operation, as the specification parser produces it; `details` is the rest of it. */
  datatype Endpoint = Endpoint(httpMethod: string, path: string, description: Option<string>, details: JsValue)

  /** A named test intent. */
  datatype Scenario = Scenario(name: string, description: string)

  /** The clock readings the mapping takes for element `i`: `Date.now()` and the ISO time. */
  datatype ElementClock = ElementClock(ms: nat -> nat, iso: nat -> string)

  datatype Request = Request(httpMethod: JsValue, path: JsValue, headers: JsValue, params: JsValue, body: JsValue)

  datatype ExpectedResponse = ExpectedResponse(statusCode: JsValue, body: JsValue, headers: JsValue)

  /** A test case in the fixed shape every generated test takes. */
  datatype TestCase = TestCase(
    id: string,
    name: JsValue,
    description: JsValue,
    request: Request,
    expectedResponse: ExpectedResponse,
    assertions: JsValue,
    generated: bool,
    generatedAt: string)

  // ---------------------------------------------------------------- prompt

  function Describe(e: Endpoint): string {
    if e.description.Some? && e.description.value != "" then e.description.value else "No description"
  }

  function ScenarioLine(s: Scenario): string {
    "- " + s.name + ": " + s.description
  }

  function ScenarioLines(scenarios: seq<Scenario>): (lines: seq<string>)
    ensures |lines| == |scenarios|
    ensures forall k :: 0 <= k < |scenarios| ==> lines[k] == ScenarioLine(scenarios[k])
  {
    seq(|scenarios|, k requires 0 <= k < |scenarios| => ScenarioLine(scenarios[k]))
  }

  function PromptHead(endpoint: Endpoint, json: string): seq<string> {
    [ "",
      "Generate comprehensive API test cases for the following endpoint:",
      "",
      "Endpoint: " + endpoint.httpMethod + " " + endpoint.path,
      "Description: " + Describe(endpoint),
      "",
      "OpenAPI Specification:",
      json,
      "",
      "Please generate SMART test cases covering:" ]
  }

  const PromptTail: seq<string> :=
    [ "",
      "For each test case, provide:",
      "1. Test name and description",
      "2. Request details (method, URL, headers, body)",
      "3. Expected response (status code, response body structure)",
      "4. Assertions to validate the response",
      "",
      "Format the output as a JSON array of test cases.",
      "" ]

  /**
    The entries of the prompt template, which the prompt joins with newlines: the template
    opens and closes with a newline, and the scenario list takes one entry per scenario
    between the heading and the instructions (one empty entry when there are none). The
    `json` entry is itself several lines of text.
   */
  function PromptLines(endpoint: Endpoint, json: string, scenarios: seq<Scenario>): (lines: seq<string>)
    ensures |lines| == 19 + (if scenarios == [] then 1 else |scenarios|)
    ensures lines[0] == "" && lines[|lines| - 1] == ""
    ensures lines[3] == "Endpoint: " + endpoint.httpMethod + " " + endpoint.path
    ensures lines[4] == "Description: " + Describe(endpoint)
    ensures lines[7] == json
    ensures forall k :: 0 <= k < |scenarios| ==> lines[10 + k] == ScenarioLine(scenarios[k])
    ensures lines[|lines| - 9..] == PromptTail
  {
    PromptHead(endpoint, json) + (if scenarios == [] then [""] else ScenarioLines(scenarios)) + PromptTail
  }

  /**
    `buildTestGenerationPrompt`. `stringify` stands for `JSON.stringify(endpoint, null, 2)`;
    the `specification` argument of `buildTestGenerationPrompt` is not used by its template.
   */
  function BuildPrompt(endpoint: Endpoint, stringify: Endpoint -> string, scenarios: seq<Scenario>): (prompt: string)
    ensures |prompt| > 0 && prompt[0] == '\n' && prompt[|prompt| - 1] == '\n'
  {
    var lines := PromptLines(endpoint, stringify(endpoint), scenarios);
    JoinOpensWithNewline(lines);
    JoinClosesWithNewline(lines);
    Join(lines)
  }

  /** The endpoint's JSON stands as its own block between two newlines. */
  lemma PromptEndpointJson(endpoint: Endpoint, stringify: Endpoint -> string, scenarios: seq<Scenario>)
    ensures var lines := PromptLines(endpoint, stringify(endpoint), scenarios);
      BuildPrompt(endpoint, stringify, scenarios)
      == Join(lines[..7]) + "\n" + stringify(endpoint) + "\n" + Join(lines[8..])
  {
    JoinAround(PromptLines(endpoint, stringify(endpoint), scenarios), 7);
  }

  /**
    The prompt holds the line `Endpoint: {method} {path}` and the line
    `Description: {description or "No description"}`, each between two newlines.
   */
  lemma PromptHeaderLines(endpoint: Endpoint, stringify: Endpoint -> string, scenarios: seq<Scenario>)
    ensures var lines := PromptLines(endpoint, stringify(endpoint), scenarios);
      && BuildPrompt(endpoint, stringify, scenarios)
         == Join(lines[..3]) + "\n" + ("Endpoint: " + endpoint.httpMethod + " " + endpoint.path) + "\n" + Join(lines[4..])
      && BuildPrompt(endpoint, stringify, scenarios)
         == Join(lines[..4]) + "\n" + ("Description: " + Describe(endpoint)) + "\n" + Join(lines[5..])
  {
    var lines := PromptLines(endpoint, stringify(endpoint), scenarios);
    JoinAround(lines, 3);
    JoinAround(lines, 4);
  }

  /**
    The scenario list `scenarios.map(s => `- ${s.name}: ${s.description}`).join('\n')`
    stands as one block between the heading and the instructions.
   */
  lemma PromptScenarioBlock(endpoint: Endpoint, stringify: Endpoint -> string, scenarios: seq<Scenario>)
    ensures BuildPrompt(endpoint, stringify, scenarios)
         == Join(PromptHead(endpoint, stringify(endpoint))) + "\n" + Join(ScenarioLines(scenarios)) + "\n" + Join(PromptTail)
  {
    var mid := if scenarios == [] then [""] else ScenarioLines(scenarios);
    assert Join(mid) == Join(ScenarioLines(scenarios));
    JoinThree(PromptHead(endpoint, stringify(endpoint)), mid, PromptTail);
  }

  /** Scenario `k` is template entry `10 + k` of the prompt, so the scenarios appear in their order. */
  lemma ScenarioLinesInPrompt(endpoint: Endpoint, stringify: Endpoint -> string, scenarios: seq<Scenario>, k: nat)
    requires k < |scenarios|
    ensures var lines := PromptLines(endpoint, stringify(endpoint), scenarios);
      && lines[10 + k] == ScenarioLine(scenarios[k])
      && BuildPrompt(endpoint, stringify, scenarios)
         == Join(lines[..10 + k]) + "\n" + ScenarioLine(scenarios[k]) + "\n" + Join(lines[11 + k..])
  {
    var lines := PromptLines(endpoint, stringify(endpoint), scenarios);
    assert lines[10 + k] == ScenarioLines(scenarios)[k];
    JoinAround(lines, 10 + k);
  }

  /** The scenario list splits back into exactly one line per scenario when no text in it breaks lines. */
  lemma ScenarioListLines(scenarios: seq<Scenario>)
    requires |scenarios| >= 1
    requires forall k :: 0 <= k < |scenarios| ==> NoNewline(scenarios[k].name) && NoNewline(scenarios[k].description)
    ensures Split(Join(ScenarioLines(scenarios))) == ScenarioLines(scenarios)
  {
    var lines := ScenarioLines(scenarios);
    forall k | 0 <= k < |lines| ensures NoNewline(lines[k]) {
      var s := scenarios[k];
      assert lines[k] == "- " + s.name + ": " + s.description;
      assert forall c :: c in lines[k] ==> c in "- " || c in s.name || c in ": " || c in s.description;
    }
    SplitJoin(lines);
  }

  // ---------------------------------------------------------------- parsing

  function DefaultName(index: nat): string {
    "Test " + NatToString(index + 1)
  }

  /** `generated-${Date.now()}-${index}`. */
  function TestId(ms: nat, index: nat): string {
    "generated-" + NatToString(ms) + "-" + NatToString(index)
  }

  /** Two elements of one batch get different ids, whatever the clock read for each. */
  lemma TestIdsDiffer(ms1: nat, i: nat, ms2: nat, j: nat)
    requires i != j
    ensures TestId(ms1, i) != TestId(ms2, j)
  {
    if TestId(ms1, i) == TestId(ms2, j) {
      DigitsAfterLastDash("generated-" + NatToString(ms1), NatToString(i), "generated-" + NatToString(ms2), NatToString(j));
      NatToStringInjective(i, j);
    }
  }

  lemma BatchIdsDistinct(clock: ElementClock, n: nat)
    ensures forall i, j :: 0 <= i < j < n ==> TestId(clock.ms(i), i) != TestId(clock.ms(j), j)
  {
    forall i, j | 0 <= i < j < n ensures TestId(clock.ms(i), i) != TestId(clock.ms(j), j) {
      TestIdsDiffer(clock.ms(i), i, clock.ms(j), j);
    }
  }

  const EmptyObject := JObj(map[])

  /** Every field whose default is truthy is truthy in a normalised test case. */
  predicate Normalised(t: TestCase) {
    && Truthy(Some(t.name))
    && Truthy(Some(t.request.httpMethod)) && Truthy(Some(t.request.path))
    && Truthy(Some(t.request.headers)) && Truthy(Some(t.request.params))
    && Truthy(Some(t.expectedResponse.statusCode))
    && Truthy(Some(t.expectedResponse.body)) && Truthy(Some(t.expectedResponse.headers))
    && Truthy(Some(t.assertions))
    && t.generated
  }

  /** The callback of `tests.map`: element `index` of the parsed array as a test case. */
  function NormaliseTest(test: JsValue, index: nat, clock: ElementClock): (t: TestCase)
    requires test != JNull
    ensures Normalised(t)
  {
    var self := Some(test);
    var request := Member(self, "request");
    var expected := Member(self, "expectedResponse");
    TestCase(
      TestId(clock.ms(index), index),
      OrElse(Member(self, "name"), JStr(DefaultName(index))),
      OrElse(Member(self, "description"), JStr("")),
      Request(
        OrElse(Member(request, "method"), JStr("GET")),
        OrElse(Member(request, "path"), JStr("/")),
        OrElse(Member(request, "headers"), EmptyObject),
        OrElse(Member(request, "params"), EmptyObject),
        OrElse(Member(request, "body"), JNull)),
      ExpectedResponse(
        OrElse(Member(expected, "statusCode"), JNum(200)),
        OrElse(Member(expected, "body"), EmptyObject),
        OrElse(Member(expected, "headers"), EmptyObject)),
      OrElse(Member(self, "assertions"), JArr([])),
      true,
      clock.iso(index))
  }

  /** `out` is `v` when `v` is truthy and the default `d` when it is falsy. */
  predicate FallsBack(v: Option<JsValue>, out: JsValue, d: JsValue) {
    if Truthy(v) then out == v.value else out == d
  }

  /**
    The defaults of the mapping apply exactly when a field is falsy (missing, null, false,
    0 or the empty string); a truthy value is copied as it is, whatever its type.
   */
  lemma NormaliseDefaults(test: JsValue, index: nat, clock: ElementClock)
    requires test != JNull
    ensures var t := NormaliseTest(test, index, clock);
      var self := Some(test);
      var request := Member(self, "request");
      var expected := Member(self, "expectedResponse");
      && t.id == TestId(clock.ms(index), index)
      && FallsBack(Member(self, "name"), t.name, JStr(DefaultName(index)))
      && FallsBack(Member(self, "description"), t.description, JStr(""))
      && FallsBack(Member(request, "method"), t.request.httpMethod, JStr("GET"))
      && FallsBack(Member(request, "path"), t.request.path, JStr("/"))
      && FallsBack(Member(request, "headers"), t.request.headers, JObj(map[]))
      && FallsBack(Member(request, "params"), t.request.params, JObj(map[]))
      && FallsBack(Member(request, "body"), t.request.body, JNull)
      && FallsBack(Member(expected, "statusCode"), t.expectedResponse.statusCode, JNum(200))
      && FallsBack(Member(expected, "body"), t.expectedResponse.body, JObj(map[]))
      && FallsBack(Member(expected, "headers"), t.expectedResponse.headers, JObj(map[]))
      && FallsBack(Member(self, "assertions"), t.assertions, JArr([]))
      && t.generated && t.generatedAt == clock.iso(index)
  {
  }

  /** Falsy is not "missing": status code 0 becomes 200 and an empty body becomes null. */
  lemma FalsyValuesTakeDefaults(clock: ElementClock)
    ensures var test := JObj(map[
        "request" := JObj(map["method" := JStr(""), "body" := JStr("")]),
        "expectedResponse" := JObj(map["statusCode" := JNum(0)])]);
      var t := NormaliseTest(test, 0, clock);
      && t.request.httpMethod == JStr("GET")
      && t.request.body == JNull
      && t.expectedResponse.statusCode == JNum(200)
  {
  }

  /** Default names count from 1, ids from 0. */
  lemma DefaultNamesCountFromOne(clock: ElementClock)
    ensures var t := NormaliseTest(JObj(map[]), 0, clock);
      t.name == JStr("Test 1") && t.id == TestId(clock.ms(0), 0)
  {
    assert NatToString(1) == "1";
  }

  /** The array the fragment parses to, if the text has a fragment and it parses to an array. */
  function ParsedArray(content: string, parse: string -> Option<JsValue>): Option<seq<JsValue>> {
    match Extraction.Fragment(content)
    case None => None
    case Some(fragment) =>
      match parse(fragment)
      case Some(JArr(items)) => Some(items)
      case _ => None
  }

  /**
    `parseGeneratedTests`: find the fragment, `JSON.parse` it (`parse` gives `None` where
    `JSON.parse` throws), and map each element to a test case. Any failure on the way
    (no fragment, malformed JSON, a non-array, a null element) becomes one generic error.
   */
  function ParseGeneratedTests(content: string, parse: string -> Option<JsValue>, clock: ElementClock)
    : (r: Result<seq<TestCase>, string>)
    ensures r.Err? ==> r.error == ParseFailure
    ensures r.Ok? ==> forall i :: 0 <= i < |r.value| ==> Normalised(r.value[i])
    ensures r.Ok? ==> forall i, j :: 0 <= i < j < |r.value| ==> r.value[i].id != r.value[j].id
  {
    match ParsedArray(content, parse)
    case None => Err(ParseFailure)
    case Some(items) =>
      if JNull in items then Err(ParseFailure)
      else
        BatchIdsDistinct(clock, |items|);
        Ok(seq(|items|, i requires 0 <= i < |items| => NormaliseTest(items[i], i, clock)))
  }

  /** Text without a `[`-`{` ... `}`-`]` fragment fails with the generic error. */
  lemma NoFragmentFails(content: string, parse: string -> Option<JsValue>, clock: ElementClock)
    requires forall i: nat, k: nat :: Extraction.OpensAt(content, i) && Extraction.ClosesAt(content, k) ==> k <= Extraction.Brace(content, i)
    ensures ParseGeneratedTests(content, parse, clock) == Err(ParseFailure)
  {
  }

  /**
    The parse succeeds exactly when the fragment parses to an array without null elements,
    and then yields one test case per element, in order; otherwise it yields the generic
    error, never an empty list.
   */
  lemma ParseOutcome(content: string, parse: string -> Option<JsValue>, clock: ElementClock)
    ensures var r := ParseGeneratedTests(content, parse, clock);
      var items := ParsedArray(content, parse);
      && (r.Ok? <==> items.Some? && JNull !in items.value)
      && (r.Ok? ==> (&& |r.value| == |items.value|
                     && forall i :: 0 <= i < |r.value| ==> r.value[i] == NormaliseTest(items.value[i], i, clock)))
      && (r.Err? ==> r == Err(ParseFailure))
  {
  }

  // ---------------------------------------------------------------- the model call

  /** The parameters of `generateTestsWithLLM`; `model` is "" when not configured. */
  datatype GenerationParams = GenerationParams(apiKey: string, model: string, endpoint: Endpoint, scenarios: seq<Scenario>)

  datatype Message = Message(role: string, content: string)

  /** The chat-completion request: authorisation, model, messages and sampling settings. */
  datatype ChatRequest = ChatRequest(authorization: string, model: string, messages: seq<Message>, temperature: real, maxTokens: nat)

  /**
    The precondition and defaults before the request goes out: no key, no request;
    a falsy model becomes `openai/gpt-4`.
   */
  function BuildChatRequest(p: GenerationParams, stringify: Endpoint -> string): (r: Result<ChatRequest, string>)
    ensures r.Err? <==> p.apiKey == ""
    ensures r.Err? ==> r.error == ApiKeyRequired
    ensures r.Ok? ==> r.value.model == (if p.model == "" then DefaultModel else p.model)
    ensures r.Ok? ==> r.value.model != ""
    ensures r.Ok? ==> |r.value.messages| == 2 && r.value.messages[1] == Message("user", BuildPrompt(p.endpoint, stringify, p.scenarios))
  {
    if p.apiKey == "" then Err(ApiKeyRequired)
    else
      Ok(ChatRequest(
        "Bearer " + p.apiKey,
        if p.model == "" then DefaultModel else p.model,
        [Message("system", SystemInstruction), Message("user", BuildPrompt(p.endpoint, stringify, p.scenarios))],
        0.7,
        2000))
  }

  /** What came back from the completion endpoint. */
  datatype ChatReply =
    | FetchFailed(message: string)              // `fetch` or `response.json()` rejected
    | NotOk(statusText: string)                 // `response.ok` was false
    | Body(data: JsValue, clock: ElementClock)  // the parsed body, and the clock the mapping reads

  /** `data.choices[0].message.content`, or the TypeError a null or undefined step throws. */
  function CompletionContent(data: JsValue): (r: Result<Option<JsValue>, string>)
    ensures r.Ok? ==> r.value == Member(Member(First(Member(Some(data), "choices")), "message"), "content")
    ensures r.Err? <==>
      || data == JNull
      || IsNullish(Member(Some(data), "choices"))
      || IsNullish(First(Member(Some(data), "choices")))
      || IsNullish(Member(First(Member(Some(data), "choices")), "message"))
  {
    var choices := Member(Some(data), "choices");
    var first := First(choices);
    var message := Member(first, "message");
    if IsNullish(Some(data)) then Err(NullishReadMessage(Some(data), "choices"))
    else if IsNullish(choices) then Err(NullishReadMessage(choices, "0"))
    else if IsNullish(first) then Err(NullishReadMessage(first, "message"))
    else if IsNullish(message) then Err(NullishReadMessage(message, "content"))
    else Ok(Member(message, "content"))
  }

  /** `parseGeneratedTests(content)`: anything but a string fails inside its `try`. */
  function ParseContent(content: Option<JsValue>, parse: string -> Option<JsValue>, clock: ElementClock)
    : (r: Result<seq<TestCase>, string>)
    ensures r.Err? ==> r.error == ParseFailure
    ensures (content.None? || !content.value.JStr?) ==> r.Err?
    ensures content.Some? && content.value.JStr? ==> r == ParseGeneratedTests(content.value.s, parse, clock)
  {
    match content
    case Some(JStr(text)) => ParseGeneratedTests(text, parse, clock)
    case _ => Err(ParseFailure)
  }

  /**
    `generateTestsWithLLM`: the key check comes first, then the exchange, then the parse.
    `reply` is the answer to the request `BuildChatRequest` makes from `p`; the outcome
    depends on the request only through the key check, which both share.
   */
  function GenerateTestsWithLLM(p: GenerationParams, parse: string -> Option<JsValue>, reply: ChatReply)
    : (r: Result<seq<TestCase>, string>)
    ensures p.apiKey == "" ==> r == Err(ApiKeyRequired)
    ensures p.apiKey != "" && reply.NotOk? ==> r == Err("OpenRouter API error: " + reply.statusText)
    ensures p.apiKey != "" && reply.FetchFailed? ==> r == Err(reply.message)
    ensures p.apiKey != "" && reply.Body? && CompletionContent(reply.data).Err? ==>
      r == Err(CompletionContent(reply.data).error)
    ensures p.apiKey != "" && reply.Body? && CompletionContent(reply.data).Ok? && r.Err? ==>
      r.error == ParseFailure
    ensures p.apiKey != "" && reply.Body? && CompletionContent(reply.data).Ok? ==>
      r == ParseContent(CompletionContent(reply.data).value, parse, reply.clock)
    ensures r.Ok? ==> reply.Body? && forall i :: 0 <= i < |r.value| ==> Normalised(r.value[i])
    ensures r.Ok? ==> forall i, j :: 0 <= i < j < |r.value| ==> r.value[i].id != r.value[j].id
  {
    if p.apiKey == "" then Err(ApiKeyRequired)
    else
      match reply
      case FetchFailed(m) => Err(m)
      case NotOk(statusText) => Err("OpenRouter API error: " + statusText)
      case Body(data, clock) =>
        match CompletionContent(data)
        case Err(m) => Err(m)
        case Ok(content) => ParseContent(content, parse, clock)
  }

  /**
    A readable reply whose content holds no `[{ … }]` fragment is not an empty batch: it
    fails with the generic parse error.
   */
  lemma ReplyWithoutFragmentFails(p: GenerationParams, parse: string -> Option<JsValue>, reply: ChatReply, content: string)
    requires p.apiKey != "" && reply.Body?
    requires CompletionContent(reply.data) == Ok(Some(JStr(content)))
    requires forall i: nat, k: nat :: Extraction.OpensAt(content, i) && Extraction.ClosesAt(content, k) ==> k <= Extraction.Brace(content, i)
    ensures GenerateTestsWithLLM(p, parse, reply) == Err(ParseFailure)
  {
    NoFragmentFails(content, parse, reply.clock);
  }

  // ---------------------------------------------------------------- the model catalogue

  /** One entry of the model list; `None` fields are `undefined`. */
  datatype ModelInfo = ModelInfo(id: Option<JsValue>, name: Option<JsValue>, contextLength: Option<JsValue>, pricing: Option<JsValue>)

  datatype ModelsReply =
    | ModelsUnavailable          // `fetch` rejected, `response.ok` was false, or the body was not JSON
    | ModelsBody(data: JsValue)  // the parsed body

  function ModelEntry(m: JsValue): ModelInfo {
    var self := Some(m);
    ModelInfo(
      Member(self, "id"),
      if Truthy(Member(self, "name")) then Member(self, "name") else Member(self, "id"),
      Member(self, "context_length"),
      Member(self, "pricing"))
  }

  /** `getAvailableModels`: every failure, a throwing map included, gives the empty list. */
  function AvailableModels(reply: ModelsReply): (r: seq<ModelInfo>)
    ensures reply.ModelsUnavailable? ==> r == []
  {
    match reply
    case ModelsUnavailable => []
    case ModelsBody(data) =>
      match Member(Some(data), "data")
      case Some(JArr(models)) =>
        if JNull in models then []
        else seq(|models|, i requires 0 <= i < |models| => ModelEntry(models[i]))
      case _ => []
  }

  /**
    The list maps one to one and in order, with `name` falling back to `id`; when
    `data.data` is not an array of non-null entries the result is empty.
   */
  lemma AvailableModelsShape(data: JsValue)
    ensures var r := AvailableModels(ModelsBody(data));
      match Member(Some(data), "data")
      case Some(JArr(models)) =>
        if JNull in models then r == []
        else
          && |r| == |models|
          && forall i :: 0 <= i < |models| ==>
               && r[i].id == Member(Some(models[i]), "id")
               && (Truthy(Member(Some(models[i]), "name")) ==> r[i].name == Member(Some(models[i]), "name"))
               && (!Truthy(Member(Some(models[i]), "name")) ==> r[i].name == Member(Some(models[i]), "id"))
      case _ => r == []
  {
  }
}
