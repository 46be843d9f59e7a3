# Local SLM chat: a verified model of its decision logic

The system is a browser chat client, `app.js`, that runs small text-generation models on
the CPU with Transformers.js. It comes with a small Node CORS relay, `server.js`. This
project models the parts of both that make decisions, and proves what they promise:

- **Bootstrap** (`loadTransformers`). The Transformers.js runtime is searched for over 10
  CDN URLs and then the same URLs through the local relay. Each URL is tried by dynamic
  `import` and then by fetching the code into a blob. A usable preloaded copy wins
  outright. The search stops at the first module that exposes both `pipeline` and `env`.
  Otherwise it fails with an aggregated message.
- **Endpoint validation** (`validateModelEndpoint`). Before a model is loaded, the Hub API
  metadata (custom endpoints only) and `config.json` must come back as JSON. A server that
  answers with an HTML page is caught early, with an explicit message.
- **Artifact wrapper** (`env.fetch`). A `/resolve/` artifact that is non-OK or looks like
  HTML is retried once on `https://hf-mirror.com` when it was asked of
  `https://huggingface.co`. Otherwise it is turned into a clear error.
- **`loadModel`**. It normalises a custom base URL and validates the endpoint. A default
  endpoint fails over to the mirror; a custom one never does. It then builds the pipeline
  and records `env.HF_ENDPOINT`, the generator and the status line. Error messages that
  mention HTML are replaced by one generic message.
- **Generation session** (`generateAssistantReply`, `stopGeneration`,
  `buildPromptFromThread`). This covers the clamped sampling parameters and the plain-text
  prompt. Cancellation is cooperative: the token callback throws a sentinel once the stop
  flag is up. The outcome is classified as completed, cancelled or failed.
- **Relay** (`server.js`). Requests are routed by method and path, and an allow-list of
  request headers is forwarded. Upstream status and headers are copied back without
  `content-security-policy`, and the CORS headers are forced on top.

Everything outside the program is a parameter:
- The network is a function from URL to a settled `fetch`: a response or a rejection
  message.
- `JSON.parse` is a predicate on texts.
- Dynamic `import` is a function from URL or code to a module namespace or an error.
- The pipeline factory is a function from (model id, endpoint, quantized) to a generator
  or an error.
- The relay's upstream `fetch` is a function from the call it is given to its result.

Stateful code is modelled as classes:
- `Bootstrap.Runtime` holds the module globals `pipeline` and `env`.
- `Endpoint.HubEnv` holds `env.HF_ENDPOINT`, `generator` and the status line.
- `Generation.Session` holds `isGenerating`, `shouldStop` and the thread.
- `Proxy.ServerResponse` holds the response status, headers and body.

Each method is proved against a specification function. The properties are proved as
lemmas about those functions.

Files:
- `wrappers.dfy`: Option, Result, Outcome.
- `text.dfy`: JavaScript string operations.
- `uri.dfy`: `encodeURIComponent` and the repository path.
- `http.dfy`: responses and the HTML sniff.
- `bootstrap.dfy`, `validation.dfy`, `artifacts.dfy`, `endpoint.dfy`, `generation.dfy`,
  `proxy.dfy`: one module each.

Where the code and its evident intent differ, the model follows the code. Each such case
is stated as a lemma:
- **Normalisation is not idempotent.** `a /` becomes `https://a ` and then `https://a`
  (`Endpoint.NormaliseNotIdempotent`). `Endpoint.FixedPointIff` gives the exact set of
  fixed points.
- **Cancellation is a substring match.** Any error whose message contains
  `GenerationStopped` is a cancellation (`Generation.WrappedSentinelCancels`).
- **The candidate list is not de-duplicated** (`Bootstrap.DirectBeforeRelay`).
- **A bad relay path gets 404, not 400** (`Proxy.PathChecks`).
- **The prompt repeats the cue.** A started reply's prompt ends with an empty
  `Assistant:` line followed by the `Assistant:` cue (`Generation.StartedPromptRepeatsCue`).
- **Temperature 0 is not greedy.** It becomes 0.7; only a negative temperature turns
  sampling off (`Generation.GreedyOnlyForNegativeTemperature`).
- **The load-error rewrite hides specific messages.** It replaces the validator's and
  the wrapper's own HTML messages by the generic one
  (`Endpoint.SpecificHtmlMessagesRewritten`).

## Model

| member | source | states |
|---|---|---|
| Bootstrap.UsableIffBothFound | app.js:72-75 | a module is usable iff `pipeline` is found (own or via `default`) and `env` is found (own or via `default`), each independently |
| Bootstrap.AttemptAt | app.js:68-69 | attempts run URL-major, strategy-minor: attempt 2i+j is candidate i with import (j=0) or blob (j=1) |
| Bootstrap.DirectBeforeRelay | app.js:45-48 | there are 40 attempts; the first 20 use the 10 direct URLs in declared order, the last 20 the same URLs behind `http://localhost:5174/proxy/`, with no de-duplication |
| Bootstrap.SearchFrom | app.js:68-85 | the search from attempt k makes between k and all the attempts |
| Bootstrap.SearchAfterFailure | app.js:80-83 | an attempt that throws sets `lastErr` to its message and the search goes on |
| Bootstrap.SearchAfterLoad | app.js:71-79 | an attempt that loads overwrites both globals; it ends the search if usable, and otherwise leaves `lastErr` unchanged |
| Bootstrap.SearchStopsAtFirstUsable | app.js:68-85 | a successful search stops at the first usable attempt and installs that module's `pipeline` and `env`, and no earlier attempt was usable; a failed one made every attempt |
| Bootstrap.LatestFailureCons | app.js:80-82 | the reference "latest thrown error" scans attempts in order, and only throwing attempts change it |
| Bootstrap.ExhaustedLastError | app.js:79-82 | an exhausted search's `lastErr` is the message of the latest attempt that threw; modules lacking an API never change it |
| Bootstrap.SearchIgnoresStartGlobals | app.js:68-85 | the globals before the search do not affect which attempts are made or the error |
| Bootstrap.PreloadShortCircuits | app.js:35-43 | a preloaded module exposing both APIs is used with no attempt made |
| Bootstrap.PartialPreloadSearchesNormally | app.js:35-43 | a preload lacking an API changes neither the outcome nor the attempts made |
| Bootstrap.BootstrapOutcome | app.js:67-91 | without a usable preload, over any attempt list (the program's has 40 entries): success ends at the first usable attempt, whose `pipeline` and `env` become the globals, with no earlier usable attempt; failure makes every attempt and raises the fixed message ending with the latest caught error or `desconocido` |
| Bootstrap.ThreadCount | app.js:113-114 | the WASM thread count is in 1..4; it is 1 without `hardwareConcurrency` or with 1 core, cores-1 for 2..5 cores, and 4 from 5 cores on |
| Bootstrap.TryBlob | app.js:54-65 | defines the blob strategy; no contract of its own, its branches are `Bootstrap.TryBlobOutcomes` and its use is stated by `Bootstrap.SearchAfterFailure` and `Bootstrap.SearchAfterLoad` |
| Bootstrap.TryBlobOutcomes | app.js:54-65 | a rejected fetch or an unreadable body fails with its own error, a non-OK status fails with `HTTP <status>` whatever the body, and only an OK readable body is imported, with the loader's outcome |
| Bootstrap.BootstrapSpec | app.js:10-92 | defines the whole of `loadTransformers` as `Bootstrap.BootFrom` over the 40 attempts; no contract of its own, its properties are `Bootstrap.PreloadShortCircuits`, `Bootstrap.PartialPreloadSearchesNormally` and `Bootstrap.BootstrapOutcome` |
| Bootstrap.BootFrom | app.js:10-92 | defines `loadTransformers` over a given attempt list (usable preload, else the search and the aggregated error); no contract of its own, see `Bootstrap.BootstrapOutcome` |
| Bootstrap.Runtime.LoadTransformers | app.js:10-92 | result, final globals and attempts tried (a prefix of the 40, in order) are those of the bootstrap specification |
| Bootstrap.Runtime.TryAttempt | app.js:70-83 | one import or blob attempt: the globals, the usable flag and `lastErr` follow one step of the search |
| Bootstrap.Runtime.TryStrategies | app.js:69-84 | the inner loop tries one candidate by import, then as a blob; it makes the next one or two attempts of the search, and stops after the first if that one is usable; the globals and `lastErr` it leaves are the search's |
| Bootstrap.Runtime.TryCandidates | app.js:67-86 | the nested loops return the search's outcome, globals, latest error and attempted sequence |
| Uri.EncodeComponent | app.js:327 | `encodeURIComponent` never outputs `/`, outputs only unreserved characters and `%`, and leaves a string of unreserved characters unchanged |
| Uri.RepoPath | app.js:327 | defines the repository path, one encoded component per `/`-separated segment; no contract of its own, its properties are `Uri.RepoPathKeepsSlashes` and `Uri.RepoPathOfPlainId` |
| Uri.RepoPathKeepsSlashes | app.js:327 | the encoded repository path has as many `/` as the model id |
| Uri.RepoPathOfPlainId | app.js:327 | an id of unreserved characters and `/` is used verbatim |
| Http.Snippet | app.js:160 | defines the sniffed snippet: the first `limit` characters with whitespace runs collapsed; no contract of its own, see `Http.SnippetStartsWithAngle` |
| Http.LooksHtml | app.js:161 | defines the HTML sniff of the wrapper and the validator; no contract of its own, its cases are `Http.LeadingAngleIsHtml`, `Http.HtmlContentTypeIsHtml` and `Http.DoctypeAfterWhitespaceIsHtml` |
| Http.SnippetStartsWithAngle | app.js:345-346 | the collapsed snippet starts with `<` iff the body's first character is `<` |
| Http.LeadingAngleIsHtml | app.js:370-371 | a body starting with `<` sniffs as HTML whatever the content type |
| Http.HtmlContentTypeIsHtml | app.js:160-161 | a content type holding `text/html` at any position, in any mix of upper and lower case, sniffs as HTML |
| Http.DoctypeSnippet | app.js:160 | the snippet of whitespace, then `<!doctype` in any case, then anything, is one space (none when there was no whitespace) followed by the declaration as written |
| Http.DoctypeAfterWhitespaceIsHtml | app.js:160-161 | a body of whitespace followed by `<!doctype` in any case sniffs as HTML whatever its content type, whenever the declaration ends within the sniffed prefix, even though the snippet then starts with a space |
| Validation.CheckJson | app.js:356-377 | defines one fetch-and-parse check (status first, then body, then the HTML or not-JSON message); no contract of its own, its properties are the `Validation` lemmas below |
| Validation.ValidateModelEndpoint | app.js:326-378 | defines the validator and the URLs it requests; no contract of its own, its properties are `Validation.ValidationPassesIff` and `Validation.RequestOrder` |
| Validation.CheckJsonPassesIff | app.js:356-377 | a document check passes iff the document arrives OK with a readable body that parses as JSON, whatever its content type |
| Validation.ValidationPassesIff | app.js:326-378 | validation passes iff config.json is acceptable and, for a custom endpoint, the API metadata is too |
| Validation.RequestOrder | app.js:330-357 | the API URL is requested first and only when custom; config.json is requested next unless the API check failed |
| Validation.OwnErrorsPassThrough | app.js:357-366 | a rejected fetch, and an OK response whose body cannot be read, fail with the error they carry, whatever the parser and the sniff would say |
| Validation.StatusBeforeBody | app.js:362-364 | a non-OK status fails with the status message before the body or parser is consulted |
| Validation.StatusMessageNamesUrlAndStatus | app.js:337-339 | the status message contains the URL and the status |
| Validation.MarkupGetsHtmlMessage | app.js:369-374 | an OK body that does not parse and starts with `<` gets the HTML-specific message |
| Validation.OtherTextGetsNotJsonMessage | app.js:369-377 | an OK body that does not parse and does not sniff as HTML gets the not-JSON message |
| Validation.ConfigUrlIsResolveUrl | app.js:356 | the config URL starts with the endpoint and contains `/resolve/` |
| Artifacts.MirrorUrl | app.js:131 | the mirror URL starts with the mirror, and putting the Hub prefix back gives the original URL |
| Artifacts.TryMirrorIfHub | app.js:130-146 | only a Hub URL is retried; a mirror response is handed back only when it is the mirror's answer and is OK and not HTML; a mirror rejection carries the mirror fetch's error |
| Artifacts.WrappedFetch | app.js:148-185 | a rejected fetch rejects with its own error; otherwise the wrapper rejects only with the invalid-artifact message or the mirror fetch's error |
| Artifacts.CleanResponsePassesThrough | app.js:148-185 | a response that is OK and not HTML is returned unchanged, for any URL |
| Artifacts.MirrorReplacesSuspectArtifact | app.js:156-166 | a suspect `/resolve/` artifact from the Hub is replaced by the mirror's response whenever that response is OK and not HTML |
| Artifacts.OtherUrlsPassThrough | app.js:148-185 | a URL without `/resolve/` is handed on unchanged, even non-OK |
| Artifacts.DeliveredArtifactsAreClean | app.js:140-166 | a delivered `/resolve/` artifact is OK and not HTML, from the original host or the mirror |
| Artifacts.GiveUpNamesUrl | app.js:163-176 | a suspect artifact with no usable mirror fails with the message naming the original URL, or with the mirror's own rejection |
| Endpoint.NormaliseBaseUrl | app.js:393-401 | defines the base-URL normalisation; no contract of its own, its properties are the `Endpoint.Normalise*`, `Endpoint.FixedPointIff` and `Endpoint.RenormaliseIff` lemmas; its scheme test ignores case, as `Text.SchemeAnyCase` states |
| Text.SchemeAnyCase | app.js:397 | the scheme test `/^https?:\/\//i` holds iff the first seven characters lower-case to `http://` or the first eight to `https://`, so upper- and mixed-case schemes pass (also server.js:64) |
| Text.UpperCaseSchemesAccepted | server.js:64 | `HTTPS://…` and `Http://…` pass the scheme test, so neither the client adds `https://` in front of them nor the relay refuses them |
| Endpoint.NormaliseRejectsOnlyBlank | app.js:393-396 | only a base URL blank after trimming is rejected, with the fixed message |
| Endpoint.NormalisedShape | app.js:397-400 | a normalised URL is non-empty, starts with `h`/`H` and never ends with `/` |
| Endpoint.BareHostGetsHttps | app.js:397-400 | input without a scheme becomes `https://` plus the input stripped of leading and trailing slashes |
| Endpoint.SlashesGiveBareScheme | app.js:397-400 | input made of slashes only normalises to `https:` |
| Endpoint.FixedPointIff | app.js:393-400 | normalisation leaves exactly the URLs with a scheme whose last character is neither whitespace nor `/` unchanged |
| Endpoint.RenormaliseIff | app.js:393-400 | normalising an input's normalised URL again is the identity iff that URL kept a scheme and does not end in whitespace |
| Endpoint.NormaliseNotIdempotent | app.js:393-400 | `a /` normalises to `https://a `, which normalises to `https://a` |
| Endpoint.SelectEndpoint | app.js:406-423 | defines validation with failover; no contract of its own, its properties are `Endpoint.CustomEndpointNeverFailsOver`, `Endpoint.DefaultEndpointFailover` and `Endpoint.SelectedIsCandidate` |
| Endpoint.CustomEndpointNeverFailsOver | app.js:406-422 | a custom endpoint is validated once, chosen iff it serves the model, and its own error is reported otherwise |
| Endpoint.DefaultEndpointFailover | app.js:406-422 | a default endpoint that fails leads to exactly one more validation, on the mirror; the mirror is chosen iff it serves the model, otherwise the first error is reported |
| Endpoint.SelectedIsCandidate | app.js:406-422 | the chosen endpoint is the requested one, or the mirror for a non-custom one |
| Endpoint.LoadErrorText | app.js:442-445 | defines the load-error rewrite; no contract of its own, its properties are `Endpoint.HtmlWordTriggersRewrite`, `Endpoint.HtmlAtTriggersRewrite`, `Endpoint.UnexpectedTokenAtTriggersRewrite`, `Endpoint.JsonParseMessageRewritten`, `Endpoint.SpecificHtmlMessagesRewritten` and `Endpoint.NoLetterHKept` |
| Endpoint.HtmlWordTriggersRewrite | app.js:443-445 | any load error containing `HTML` or `html` is replaced by the generic message |
| Endpoint.HtmlAtTriggersRewrite | app.js:443-445 | a load error holding `html` at any position, in any mix of upper and lower case, is replaced by the generic message |
| Endpoint.UnexpectedTokenAtTriggersRewrite | app.js:443-445 | a load error holding `unexpected token <` at any position, in any mix of upper and lower case, is replaced by the generic message even when it says nothing else about HTML |
| Endpoint.JsonParseMessageRewritten | app.js:443-445 | the JSON parser's `Unexpected token <` complaint, wherever it sits in the message, is replaced by the generic message |
| Endpoint.SpecificHtmlMessagesRewritten | app.js:443-445 | the validator's two HTML messages and the wrapper's artifact message are all replaced by the generic message |
| Endpoint.NoLetterHKept | app.js:443-445 | a message without `h`, `H` or `<` is shown unchanged |
| Endpoint.LoadModelSpec | app.js:380-451 | defines `loadModel` on the form, the oracles and the state; no contract of its own, its properties are the `Endpoint` load lemmas below and `Endpoint.HubEnv.LoadModel` is proved equal to it |
| Endpoint.BlankModelIdChangesNothing | app.js:382-386 | a blank model id only raises the alert |
| Endpoint.BlankBaseUrlFailsBeforeValidation | app.js:392-396 | a blank custom base URL fails without any request, keeping the generator and `env.HF_ENDPOINT` |
| Endpoint.FailedLoadKeepsGenerator | app.js:440-448 | a failed load keeps the previous generator, sets `Modelo no cargado.` and alerts with the prefixed message |
| Endpoint.EndpointSetBeforeValidation | app.js:402-421 | after a failed validation `env.HF_ENDPOINT` holds the requested endpoint |
| Endpoint.SuccessfulLoad | app.js:425-436 | a successful load stores the generator built for the chosen endpoint and announces it |
| Endpoint.LoadedEndpoint | app.js:391-423 | a successful load uses the normalised custom URL, or the Hub or the mirror |
| Endpoint.ConcludeIgnoresEndpoint | app.js:402-415 | after validation, the earlier value of `env.HF_ENDPOINT` does not affect the outcome |
| Endpoint.HubEnv.LoadModel | app.js:380-451 | the new state and the alert are those of the `loadModel` specification |
| Endpoint.HubEnv.ValidateWithFailover | app.js:402-423 | sets `env.HF_ENDPOINT`, chooses as the failover specification does, and switches to the mirror only when it is chosen |
| Endpoint.HubEnv.Complete | app.js:425-447 | builds the pipeline on `env.HF_ENDPOINT`, or reports the failure |
| Endpoint.HubEnv.ReportFailure | app.js:440-447 | the status becomes `Modelo no cargado.` and the alert carries the rewritten message |
| Endpoint.HubEnv.UnloadModel | app.js:453-459 | the generator is dropped and the status is `Modelo descargado.` |
| Generation.Options | app.js:480-496 | `max_new_tokens` at least 1, temperature and `top_k` at least 0, `top_p` in [0,1], sampling iff temperature > 0, penalty 1.1, no full text |
| Generation.MissingFieldsGetDefaults | app.js:480-483 | 0 or NaN gives 64, 0.7, 50 and 0.95 |
| Generation.InRangeValuesKept | app.js:480-483 | values within range are used as given |
| Generation.OutOfRangeValuesClamped | app.js:480-483 | values outside range are clamped to the nearest bound |
| Generation.GreedyOnlyForNegativeTemperature | app.js:481-494 | sampling is off iff the temperature input is negative |
| Generation.PromptLineShape | app.js:313-317 | a line is the label, `:`, and a space plus the text without trailing whitespace when the text is not blank |
| Generation.BuildPrompt | app.js:309-320 | defines `buildPromptFromThread`; no contract of its own, its properties are `Generation.PromptLineShape`, `Generation.PromptEndsWithCue`, `Generation.StartedPromptRepeatsCue` and `Generation.PromptLineCount` |
| Generation.PromptEndsWithCue | app.js:309-320 | the prompt is the lines joined by newlines, then the `Assistant:` cue on its own line |
| Generation.StartedPromptRepeatsCue | app.js:485-489 | a started reply's prompt ends with `Assistant:\nAssistant:` |
| Generation.PromptLineCount | app.js:309-320 | with no newline in any message, the prompt has one newline per message |
| Generation.StepStream | app.js:499-505 | a token extends the reply; once the flag is up, nothing changes |
| Generation.StoppedReplyFrozen | app.js:499-503 | once the stop flag is up, no further event changes the reply |
| Generation.ReplyIsTokensBeforeStop | app.js:499-505 | the reply is exactly its earlier text plus the tokens received before the first stop |
| Generation.Classify | app.js:514-523 | a return completes; an error containing `GenerationStopped` cancels; any other error fails with the prefixed alert |
| Generation.WrappedSentinelCancels | app.js:516 | any message merely containing the sentinel counts as a cancellation |
| Generation.FinalText | app.js:509-511 | a non-empty returned text replaces the reply when nothing was streamed, and only then |
| Generation.Session.Start | app.js:474-490 | no-op without a generator or while generating; otherwise sets the flags, appends an empty assistant bubble and builds the prompt and options |
| Generation.Session.OnToken | app.js:499-505 | refuses when the stop flag is up; otherwise appends the token to the reply, as the stream step says |
| Generation.Session.Stop | app.js:528-531 | raises the flag only while generating |
| Generation.Session.Finish | app.js:506-525 | classifies the ending, applies the final text, and leaves the session idle with the stop flag unchanged |
| Proxy.WithCors | server.js:25-29 | the three CORS headers hold `*`, `GET,HEAD,OPTIONS` and `*`; every other header is kept |
| Proxy.Respond | server.js:38-132 | defines the whole handler on the response state; no contract of its own, its properties are the `Proxy` lemmas below and `Proxy.Handle` is proved equal to it |
| Proxy.PreflightAnyPath | server.js:41-46 | OPTIONS gets 204, CORS and an empty body on any path, without an upstream call |
| Proxy.OtherMethodsRefused | server.js:48-50 | methods other than GET, HEAD and OPTIONS get 405 `Method Not Allowed` |
| Proxy.PathChecks | server.js:53-66 | a path outside `/proxy/` gets 404 with the usage text; a target without `http(s)://` gets 400, the scheme matched in any case (`Text.SchemeAnyCase`, `Text.UpperCaseSchemesAccepted`) |
| Proxy.UpstreamCalledIff | server.js:41-93 | upstream is called iff the request is a GET or HEAD under `/proxy/` with a scheme, with the same method and the verbatim remainder of the URL |
| Proxy.Forwarded | server.js:69-86 | defines the forwarded headers; no contract of its own, see `Proxy.ForwardedExactly` |
| Proxy.ForwardedExactly | server.js:69-86 | exactly the allow-listed headers present in the request are forwarded, with unchanged values |
| Proxy.Copied | server.js:97-102 | defines the header copy; no contract of its own, its properties are `Proxy.CspNeverCopied`, `Proxy.LastValueWins` and `Proxy.UnnamedHeadersKept` |
| Proxy.CspNeverCopied | server.js:97-102 | `content-security-policy` is never copied |
| Proxy.LastValueWins | server.js:97-102 | each other header gets the value of the last upstream header with that name in any case |
| Proxy.UnnamedHeadersKept | server.js:97-102 | headers upstream does not send keep their earlier state |
| Proxy.RelayedResponse | server.js:95-116 | status copied; no CSP; CORS forced; body piped only for a GET with an upstream body, else empty |
| Proxy.UnreachableGives502 | server.js:129-132 | an unreachable upstream gives 502, plain text and `Proxy error: <message>` |
| Proxy.CollectForwarded | server.js:69-86 | the header loop builds exactly the allow-listed request headers |
| Proxy.ServerResponse.SetHeader | server.js:101 | a header set under its lower-cased name replaces any earlier value |
| Proxy.ServerResponse.SendError | server.js:31-36 | CORS, the status, plain-text content type and the message plus newline |
| Proxy.ServerResponse.CopyHeaders | server.js:97-102 | the copy loop leaves the headers the copy specification gives |
| Proxy.Handle | server.js:38-132 | the response and the upstream call are those of the handler specification |

## Left out

- Real I/O is not executed. The network, dynamic `import`, blobs and object URLs, the
  upstream `fetch` of the relay and the pipeline factory are oracles given as function
  parameters. Request options (`cache`, `mode`, `credentials`, `redirect`, the `Accept`
  header) are not modelled.
- `JSON.parse` is an oracle predicate on the body text.
- `encodeURIComponent` is modelled as UTF-8 percent-encoding of code points. JavaScript
  strings are UTF-16, so lone surrogates, which make it throw, are not modelled.
- Http.Snippet: `slice(0, n)` counts UTF-16 code units, while the model counts
  characters (code points), since a Dafny character cannot hold half of a surrogate
  pair. A body with characters outside the Basic Multilingual Plane therefore gives the
  source a shorter snippet than the model: a `config.json` body of 150 emoji followed by
  `<!doctype html>`, served as `text/plain`, gets the HTML message in the model and the
  not-JSON message in the source.
- Http.LooksHtml: inherits the difference of `Http.Snippet` for bodies with characters
  outside the Basic Multilingual Plane; for other bodies the two agree.
- `toLowerCase` and the `i` regex flag are modelled on ASCII only. This is exact for every
  pattern used here, since each is ASCII.
- An error whose `message` is empty is rendered by `String(err)`. The model takes an
  error's text as one string, so it does not distinguish these cases. This covers
  `lastErr` in the bootstrap message, the load error, the generation error and the
  relay's `Proxy error:` text.
- Proxy.UnreachableGives502: states `Proxy error: <message>` with the error's text as one
  string; the `String(err)` rendering of an error with an empty `message`
  (server.js:130) is not distinguished, as the line above says.
- Artifacts.WrappedFetch: the wrapper's `catch` (app.js:177-179) rethrows only `Error`
  instances and swallows any other throwable, then returns the original, suspect
  response. The model treats every rejection of the mirror fetch as an `Error` and
  fails with its reason, so it does not capture a mirror fetch that rejects with a
  non-`Error` value.
- The artifact wrapper skips wrapping when there is no `fetch` at all. This is not
  modelled.
- Body streaming, the mid-stream error handler of the relay, `server.listen` and
  concurrency between requests are not modelled. A piped body is recorded as `Piped`.
- Header values that make Node's `setHeader` throw are not modelled.
- Multi-valued request headers, which Node gives as arrays, are not modelled. Every
  forwarded header is a single string.
- The DOM and the UI are not modelled: `setStatus` apart from the status line
  `loadModel` leaves, alerts apart from their text, scrolling, `setUIForLoading`,
  `setUIForGeneration` apart from `isGenerating`, `console` logging, and event wiring.
- `handleSubmit` is not modelled. It trims the user text and appends the user bubble; a
  `Generation.Session` is constructed from the displayed thread instead.
- Settings persistence (`localStorage`), the directory picker and the ONNX/WASM `env`
  settings are not modelled.
- The status lines of a generation (completed with its `performance.now` duration,
  stopped by the user, failed) are not modelled; `Generation.Classify` reports the
  verdict they follow from.
- `Generation.Options`: `Number()` is modelled on optional reals, with `None` for NaN.
  Infinities and JavaScript float rounding are not modelled.
