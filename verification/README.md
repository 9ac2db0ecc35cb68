# API test generator: a Dafny model of its core

The system is a browser extension. It imports an OpenAPI description, asks a language model
(through OpenRouter) to write test cases for the endpoints a user selects, runs those tests
through its background script, and lists the stored runs. This project models the logic of
that pipeline and proves properties of it:

- **OpenRouter integration** (`openrouter.dfy`, with `extraction.dfy`, `json.dfy`,
  `decimal.dfy` and `lines.dfy`):
  - the prompt template;
  - the key precondition and model default of a completion request;
  - the navigation of the completion reply;
  - the defensive parser that cuts a `[{ … }]` fragment out of free text, parses it and
    normalises every element;
  - the mapping of the model catalogue.
- **Test generator screen** (`test_generator.dfy`):
  - endpoint toggling and specification change;
  - the settings load;
  - the generation handler: validation order, one model call per endpoint, all-or-nothing
    concatenation of the batches, the progress bar, and the error path.
- **Test runner screen** (`test_runner.dfy`):
  - normalisation of each answer from the background script;
  - the sequential run with its progress;
  - the run summary with its passed and failed counts.
- **Results screen** (`test_results.dfy`): the status filter over stored runs.

## How the JavaScript is represented

- **JSON values** are `Json.JsValue`. `undefined` is `None` of an `Option`.
- **JavaScript truthiness** (`null`, `undefined`, `false`, `0` and `""` are falsy) is
  `Json.Truthy`, so every `a || b` default in the source is `Json.OrElse`.
- **Optional chaining** (`a?.b`) is `Json.Member`.
- **Property reads on `null` or `undefined`** throw a `TypeError` in the source. The model
  returns its message, "Cannot read properties of undefined (reading 'x')", as an error
  value.
- **`JSON.parse`** is a parameter `parse: string -> Option<JsValue>`. `None` stands for a
  throw.
- **`JSON.stringify`**, the clocks, the HTTP replies and the background-script answers are
  parameters as well.
- **The regular expression `/\[\s*{[\s\S]*}\s*\]/`** is an explicit search: the leftmost
  `[` followed by optional whitespace and `{`, up to the last `}` followed by optional
  whitespace and `]` (`Extraction.Match`).
- **`Math.round(x * 100)` progress** is exact rounding of the rational `100 k / n`
  (`Progress.Percent`).
- **Stateful components** are classes:
  - `TestGenerator.Generator` and `TestRunner.Runner` hold the component state as fields.
  - Each handler is a method that changes those fields.
  - What the handler hands to its parent (`onGenerate`, `onResults`) is the method's
    return value.
  - A ghost field records every value the progress bar takes.

Behaviours of the code that the model keeps on purpose:

- **The fragment is one greedy span.** It runs from the first opener to the last closer, so
  two arrays in one reply, with any text between them, form a single fragment
  (`Extraction.TwoArraysMakeOneFragment`). Such a fragment then usually fails to parse.
- **The prompt ignores its `specification` argument.** The generator still reads
  `spec.spec`, so an unknown specification id fails with a `TypeError` after the progress
  bar has shown 0%.
- **An unknown suite id leaves the runner marked as running.** The lookup throws before
  the guarded block, so `running` stays true and no report is emitted
  (`TestRunner.Runner.RunTests`).
- **The generator's bar can show 100% before its last call.** It shows
  `round(100 i / n)` before endpoint `i`, which is below 100 for every endpoint exactly
  when fewer than 200 endpoints are selected (`TestGenerator.GenerationStepsShape`,
  `Progress.RoundsToFullBeforeLastStep`).
- **An empty suite leaves the runner's bar at 0.** The runner shows
  `round(100 (i + 1) / n)`, which ends at 100 for a non-empty suite.

## Model

| member | source | states |
|---|---|---|
| `Extraction.Match` | src/api/openrouter.js:89 | On a match, the span starts at the leftmost opener `[`, whitespace, `{`. It ends at the last closer `}`, whitespace, `]` whose brace lies after the opener's brace. With no match, no closer lies after any opener. |
| `Extraction.Fragment` | src/api/openrouter.js:89-92 | The extracted fragment starts with `[`, ends with `]` and has at least four characters; no fragment is the `!jsonMatch` case. |
| `Extraction.TwoArraysMakeOneFragment` | src/api/openrouter.js:89 | For any two texts that are each exactly one fragment and any text between them, the whole concatenation is the fragment, because the match is greedy. |
| `OpenRouter.ParseGeneratedTests` | src/api/openrouter.js:86-121 | Every failure is the one generic error "Failed to parse generated test cases". Every produced test case has truthy defaults in all defaulted fields, and the ids within a batch are pairwise distinct. |
| `OpenRouter.ParseOutcome` | src/api/openrouter.js:94-119 | Parsing succeeds exactly when the fragment parses to an array without null elements. It then gives one test case per element, in order, each the element's normalisation; otherwise it gives the generic error. |
| `OpenRouter.NoFragmentFails` | src/api/openrouter.js:89-92 | Text in which no closer follows an opener yields the generic parse error. |
| `OpenRouter.NormaliseTest` | src/api/openrouter.js:97-116 | A normalised test case has a truthy name, method, path, headers, params, status code, expected body and headers, and assertions, and is marked generated. |
| `OpenRouter.NormaliseDefaults` | src/api/openrouter.js:98-115 | Each field is copied when truthy and replaced by its default otherwise: `Test {index+1}`, empty description, `GET`, `/`, `{}`, `null`, `200`, `[]`. The id is `generated-{ms}-{index}` and the time is the element's ISO clock reading. |
| `OpenRouter.FalsyValuesTakeDefaults` | src/api/openrouter.js:102-109 | Falsy is not the same as missing: an empty method becomes `GET`, an empty body `null` and status code `0` becomes `200`. |
| `OpenRouter.DefaultNamesCountFromOne` | src/api/openrouter.js:98-99 | The element at index 0 without a name is called `Test 1`, while its id carries index 0. |
| `OpenRouter.TestIdsDiffer` | src/api/openrouter.js:98 | Ids of two different indices differ whatever the clock reads for each, because the digits after the last dash are the index. |
| `OpenRouter.BatchIdsDistinct` | src/api/openrouter.js:97-98 | All ids of one parsed batch are pairwise distinct. |
| `Decimal.ValueOfNatToString` | src/api/openrouter.js:98 | The decimal rendering of a natural number used in ids and names reads back as the same number. |
| `Decimal.NatToStringInjective` | src/api/openrouter.js:98 | Different numbers render to different digit strings. |
| `Decimal.DigitsAfterLastDash` | src/api/openrouter.js:98 | Two strings of the form `prefix-digits` that are equal have equal digit suffixes. |
| `OpenRouter.ScenarioLines` | src/api/openrouter.js:71 | One line `- {name}: {description}` per scenario, in order. |
| `OpenRouter.PromptLines` | src/api/openrouter.js:60-81 | The template has 19 fixed entries plus one entry per scenario, or one empty entry when there are none. It opens and closes with an empty entry. Entry 3 is `Endpoint: {method} {path}`, entry 4 is `Description: {description or No description}`, and entry 7 is the endpoint's JSON. Entry `10 + k` is scenario `k`, and the last nine entries are the fixed instructions. |
| `OpenRouter.BuildPrompt` | src/api/openrouter.js:60-81 | The prompt opens and closes with a newline, as the template literal does. |
| `OpenRouter.PromptEndpointJson` | src/api/openrouter.js:67-68 | `JSON.stringify(endpoint, null, 2)` stands as its own block between two newlines. |
| `OpenRouter.PromptHeaderLines` | src/api/openrouter.js:64-65 | The `Endpoint: {method} {path}` entry and the `Description: …` entry each stand between two newlines of the prompt. |
| `OpenRouter.PromptScenarioBlock` | src/api/openrouter.js:70-72 | The joined scenario list stands as one block between the heading and the instructions. |
| `OpenRouter.ScenarioLinesInPrompt` | src/api/openrouter.js:71 | Scenario `k` is template entry `10 + k` and stands between two newlines of the prompt, so scenarios appear in their given order. |
| `OpenRouter.ScenarioListLines` | src/api/openrouter.js:71 | When names and descriptions contain no line breaks, the scenario block splits back into exactly one line per scenario. |
| `OpenRouter.BuildChatRequest` | src/api/openrouter.js:10-42 | No request is built exactly when the key is empty, and the error is "OpenRouter API key is required". A falsy model becomes `openai/gpt-4`. The user message is the prompt. |
| `OpenRouter.CompletionContent` | src/api/openrouter.js:49-50 | Reading the content fails exactly when the body or one step of `data.choices[0].message` is null or undefined. Otherwise the result is `data.choices[0].message.content`. |
| `OpenRouter.ParseContent` | src/api/openrouter.js:50 | Content that is missing or not a string fails, and every failure is the generic parse error. String content is handed to `ParseGeneratedTests`, so its outcome is `ParseOutcome`'s. |
| `OpenRouter.GenerateTestsWithLLM` | src/api/openrouter.js:10-55 | An empty key fails before any exchange. A non-ok reply gives `OpenRouter API error: {statusText}` and a failed fetch its own message. A body whose `data.choices[0].message` path breaks gives that read's TypeError. Any other failure on a body is the generic parse error. A body with a readable path yields the parse of its `content`, so a reply without a `[{…}]` fragment fails. Success requires a body and yields normalised test cases with distinct ids. |
| `OpenRouter.ReplyWithoutFragmentFails` | src/api/openrouter.js:48-50 | A readable reply whose string content holds no `[{…}]` fragment fails with the generic parse error instead of yielding an empty batch. |
| `OpenRouter.AvailableModels` | src/api/openrouter.js:126-149 | Any failure of the catalogue fetch gives the empty list. |
| `OpenRouter.AvailableModelsShape` | src/api/openrouter.js:139-144 | The model list maps one to one and in order, with the name falling back to the id. The list is empty when `data.data` is not an array of non-null entries. |
| `Subsequences.Filter` | src/dashboard/components/TestResults.jsx:7-10 | `Array.prototype.filter`: never longer than the input, and an element is kept exactly when it is in the input and passes. |
| `Subsequences.FilterIsSubsequence` | src/dashboard/components/TestResults.jsx:7-10 | A filter keeps the original order. |
| `Subsequences.FilterCounts` | src/dashboard/components/TestGenerator.jsx:46-48 | A filter keeps every passing element as many times as it occurs and drops every other. |
| `TestGenerator.ToggleEndpoint` | src/dashboard/components/TestGenerator.jsx:39-53 | Toggling flips whether an endpoint with the same path and method is selected. An unselected endpoint is appended at the end. A selected one is removed, with every duplicate of its key, keeping the others in order. |
| `TestGenerator.ToggleKeepsOthers` | src/dashboard/components/TestGenerator.jsx:46-48 | Every entry with a different key keeps its multiplicity. |
| `TestGenerator.ToggleTwiceRestores` | src/dashboard/components/TestGenerator.jsx:39-53 | Toggling an unselected endpoint twice restores the selection. |
| `TestGenerator.FirstFailure` | src/dashboard/components/TestGenerator.jsx:74-89 | The index of the first failed model call: every earlier call succeeded, and the call at that index failed unless none did. |
| `TestGenerator.AllOrNothing` | src/dashboard/components/TestGenerator.jsx:70-114 | A generation run succeeds exactly when no call fails. Otherwise its error is the first failure's error and no partial suite exists. |
| `TestGenerator.AllOrNothingFlattens` | src/dashboard/components/TestGenerator.jsx:88 | A successful run yields all batches concatenated in selection order. |
| `TestGenerator.FailureAt` | src/dashboard/components/TestGenerator.jsx:80-113 | A call that fails after a run of successes decides the outcome, whatever later calls would give. |
| `TestGenerator.GenerationStepsShape` | src/dashboard/components/TestGenerator.jsx:78 | The bar starts at 0, never decreases and stays within 100. It stays below 100 throughout the loop exactly when fewer than 200 endpoints are selected. |
| `Progress.PercentBelowFull` | src/dashboard/components/TestGenerator.jsx:78 | `round(100 k / n)` for `k < n` is below 100 exactly when `200 (n - k) > n`. |
| `Progress.RoundsToFullBeforeLastStep` | src/dashboard/components/TestGenerator.jsx:78 | With 200 endpoints the bar already shows 100% before the last call. |
| `Progress.PercentMonotone` | src/dashboard/components/TestRunner.jsx:33 | The rounded percentage never decreases as the count grows. |
| `Progress.PercentOfAll` | src/dashboard/components/TestRunner.jsx:33 | Completing all `n` of `n` shows exactly 100. |
| `Subsequences.Find` | src/dashboard/components/TestGenerator.jsx:71 | `find` gives the first entry that passes, as in the lookups of the selected specification and the selected suite by id. When none passes, no entry does. |
| `TestGenerator.Generator.constructor` | src/dashboard/components/TestGenerator.jsx:6-13 | The initial state: nothing selected, model `openai/gpt-4`, no key, no models, idle, 0%, no error. |
| `TestGenerator.Generator.LoadSettings` | src/dashboard/components/TestGenerator.jsx:15-21 | The stored key and model replace the current ones only when truthy; nothing else changes. |
| `TestGenerator.Generator.RefreshModels` | src/dashboard/components/TestGenerator.jsx:23-32 | With a key, the model list becomes the catalogue mapping. |
| `TestGenerator.Generator.SpecChange` | src/dashboard/components/TestGenerator.jsx:34-37 | Choosing a specification clears the endpoint selection. |
| `TestGenerator.Generator.EndpointToggle` | src/dashboard/components/TestGenerator.jsx:39-53 | The selection becomes the toggle of the previous selection. |
| `TestGenerator.Generator.GenerateTests` | src/dashboard/components/TestGenerator.jsx:55-115 | The selection is checked first, then the key, and a failed check only sets its message. Otherwise the outcome is the post-check generation described in `Generate`. |
| `TestGenerator.Generator.Generate` | src/dashboard/components/TestGenerator.jsx:66-114 | An unknown specification fails with the `spec` TypeError after the bar shows 0. A successful run emits `{spec.name} Test Suite` with the concatenated batches and model, clears the selection, and leaves the bar at 0, each step, then 100. A failed run sets the first failure's error, stops generating, keeps the selection, and the bar stops at the failing step. |
| `TestGenerator.Generator.GenerateFor` | src/dashboard/components/TestGenerator.jsx:74-114 | With the specification found, the outcome is that of the loop. Success emits `{spec.name} Test Suite` with the concatenated batches, the specification's id and the model, clears the selection and ends the bar at 100. Failure sets the first failure's error and keeps the selection. |
| `TestGenerator.Generator.GenerateBatches` | src/dashboard/components/TestGenerator.jsx:74-89 | The loop's outcome is the all-or-nothing combination of the per-endpoint calls. Its progress trace is `round(100 i / n)` for every call made, up to and including the failing one. |
| `TestGenerator.Generator.ResetAfterDelay` | src/dashboard/components/TestGenerator.jsx:107-110 | The delayed reset sets the bar to 0 and ends generating. |
| `TestRunner.ExecuteTest` | src/dashboard/components/TestRunner.jsx:53-93 | The result carries the test's id and name and the elapsed time. A throw or a missing answer gives `failed` with the message and no request, response or assertions. Otherwise the status is the first result's truthy status, or `failed`, and the response is its truthy response, or `{}`. The result then also has the test's request and assertions and the answer's error. So the status is always truthy, and `passed` exactly when `passed` was reported. |
| `TestRunner.RunResults` | src/dashboard/components/TestRunner.jsx:30-37 | One result per test, in suite order, each carrying its test's id and name. |
| `TestRunner.PassedFailedCoverRun` | src/dashboard/components/TestRunner.jsx:41-42 | The passed and failed counts add up to at most the number of results. They add up to exactly that number when every status is `passed` or `failed`. |
| `TestRunner.AllThrownAllFailed` | src/dashboard/components/TestRunner.jsx:84-91 | When every exchange throws, every test counts as failed and none as passed. |
| `TestRunner.RunStepsShape` | src/dashboard/components/TestRunner.jsx:33 | The runner's bar never decreases, stays within 100 and ends at 100. |
| `TestRunner.Runner.constructor` | src/dashboard/components/TestRunner.jsx:4-9 | The initial state: no suite, base URL `https://api.example.com`, headers `{}`, idle, 0%. |
| `TestRunner.Runner.Configure` | src/dashboard/components/TestRunner.jsx:107-147 | The form inputs set the suite, base URL and headers text. |
| `TestRunner.Runner.RunTests` | src/dashboard/components/TestRunner.jsx:11-51 | Without a suite nothing changes. An unknown suite leaves the runner running at 0% with no report. Headers that do not parse end the run with no report. Otherwise the report holds the id, the suite's id and name, the start and end times, the base URL, one result per test, the duration and the passed and failed counts; the runner stops and the current test is cleared. |
| `TestRunner.Runner.RunSuite` | src/dashboard/components/TestRunner.jsx:30-46 | The guarded block reports one result per test, the start and end times, the duration and the passed and failed counts. It stops the runner and clears the current test. |
| `TestRunner.Runner.RunAll` | src/dashboard/components/TestRunner.jsx:30-37 | The results are those of each test in order. The bar takes `round(100 (i + 1) / n)` as test `i` starts, and the current test is the last one started. |
| `TestResults.FilteredResults` | src/dashboard/components/TestResults.jsx:7-10 | A run is listed exactly when the filter is `all` or some test of the run has exactly that status. |
| `TestResults.FilteredResultsOrder` | src/dashboard/components/TestResults.jsx:7-10 | The list keeps the stored order, and `all` lists every run. |
| `TestResults.FiltersOverlap` | src/dashboard/components/TestResults.jsx:9 | A run with both a passed and a failed test is listed under both filters; a run without tests only under `all`. |

## Left out

- **Network, browser storage and messaging** (`fetch`, `chrome.storage`, `chrome.runtime`)
  are not modelled. Their outcomes are inputs: `ChatReply`, `ModelsReply`, `Exchange`, the
  stored settings. The request headers (`HTTP-Referer`, `X-Title`), the endpoint URLs and
  the message sent to the background script (test, base URL, parsed headers) are not
  modelled.
- **The scenario generator** (`src/lib/openapi-parser.js`) is not part of this model. Its
  output for each endpoint is an input.
- `OpenRouter.GenerateTestsWithLLM`: the reply is an input rather than a function of the
  request `OpenRouter.BuildChatRequest` builds. Both share the key check that decides
  whether any request is made.
- `Progress.Percent`: the source rounds the floating-point value `(i / n) * 100`. The model
  rounds the exact rational, and the two can differ where floating point lands just below
  a half.
- **Numbers** are integers: NaN, fractions and floating point are left out. Durations are
  differences of millisecond clock readings. Turning an ISO time string back into a date
  is taken to be exact.
- **Property reads** see only an object's own JSON members. Prototype properties and
  properties of primitives (such as a string's `length`) are not modelled.
- **`toISOString`, `Date.now()` and `JSON.stringify`** are parameters. Their formats are
  not modelled.
- **The prompt** is modelled as its template entries joined with `\n`, which is the same
  text as the template literal.
- `OpenRouter.PromptLines`: counts and places template entries, not lines of text. The
  entry holding the endpoint's JSON spans several lines of the prompt.
- **React rendering** is not modelled: disabled buttons, the details panels, the selected
  result and the `exportResults` download. Neither are asynchronous interleavings of user
  actions while a handler awaits, or the `console.error` logging.
- **The timer** after a successful generation is the separate method
  `TestGenerator.Generator.ResetAfterDelay`. Its one-second delay is not modelled.
- **The specification record** carries only its id and name. `spec.spec` is read but not
  used by the prompt, and a missing `name` (which would render as `undefined Test Suite`)
  is not modelled.
- **`Settings.jsx`, `ImportSpecification.jsx`** and the background script are not part of
  this model.
