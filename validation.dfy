/**
 * `validateModelEndpoint` (app.js:326-378): before loading a model from an endpoint,
 * check that the Hub API (custom endpoints only) and the model's `config.json` answer
 * with JSON, and fail early with an actionable message when a server answers with an
 * HTML page instead. The network is an oracle from URL to `Fetched`; `JSON.parse` is an
 * oracle telling whether a text parses.
 */
module Validation {
  import opened Wrappers
  import opened Text
  import opened Uri
  import opened Http

  /** The two documents the validator asks for. */
  datatype Document = ApiMetadata | ConfigFile

  /** `validateModelEndpoint`'s default revision, the only one `loadModel` uses. */
  const DefaultRevision := "main"

  function ApiUrl(endpoint: string, modelId: string): string {
    endpoint + "/api/models/" + RepoPath(modelId)
  }

  function ConfigUrl(endpoint: string, modelId: string, revision: string): string {
    endpoint + "/" + RepoPath(modelId) + "/resolve/" + revision + "/config.json"
  }

  /** The message for a non-OK status (app.js:338 and 363). */
  function StatusMessage(doc: Document, url: string, status: int): string {
    match doc
    case ApiMetadata => "El endpoint no es compatible con la API de HF: " + url + " → HTTP " + IntToString(status) + "."
    case ConfigFile => "No se encontró config.json en " + url + " (HTTP " + IntToString(status) + ")."
  }

  /** The message for a body that is not JSON and looks like an HTML page (app.js:348, 373). */
  function HtmlMessage(doc: Document): string {
    match doc
    case ApiMetadata =>
      "Tu servidor devolvió HTML para /api/models. " +
      "Para usar URL base personalizada, el host debe exponer la API de HF y no hacer SPA fallback."
    case ConfigFile =>
      "El servidor devolvió HTML (probable index.html) para config.json. " +
      "Debes servir artefactos en rutas tipo /{repo}/resolve/main/*."
  }

  /** The message for any other body that is not JSON (app.js:351, 376). */
  function NotJsonMessage(doc: Document): string {
    match doc
    case ApiMetadata => "La respuesta de /api/models no es JSON válido."
    case ConfigFile => "config.json no es JSON válido en tu host."
  }

  /** One fetch-and-parse step: a rejected fetch or unreadable body fails with its own
      error; the status is checked before the body; a body that parses passes whatever
      its content type; any other body fails with the HTML or the not-JSON message. */
  function CheckJson(net: string -> Fetched, parses: string -> bool, doc: Document, url: string): Outcome {
    match net(url)
    case Rejected(reason) => Fail(reason)
    case Received(res) =>
      if !IsOk(res.status) then Fail(StatusMessage(doc, url, res.status))
      else match res.body
        case Unreadable(reason) => Fail(reason)
        case Text(body) =>
          if parses(body) then Pass
          else if LooksHtml(res.contentType, body, ValidatorSnippetLength) then Fail(HtmlMessage(doc))
          else Fail(NotJsonMessage(doc))
  }

  /** The outcome of a validation and the URLs it requested, in order. */
  datatype Validation = Validation(outcome: Outcome, requested: seq<string>)

  function ValidateModelEndpoint(net: string -> Fetched, parses: string -> bool, endpoint: string,
                                 modelId: string, isCustom: bool, revision: string): Validation
  {
    var api := ApiUrl(endpoint, modelId);
    var cfg := ConfigUrl(endpoint, modelId, revision);
    if isCustom && CheckJson(net, parses, ApiMetadata, api).Fail? then
      Validation(CheckJson(net, parses, ApiMetadata, api), [api])
    else
      Validation(CheckJson(net, parses, ConfigFile, cfg), (if isCustom then [api] else []) + [cfg])
  }

  /** A document is acceptable when it arrives with an OK status and a readable body
      that parses as JSON. */
  predicate Acceptable(net: string -> Fetched, parses: string -> bool, url: string) {
    && net(url).Received?
    && IsOk(net(url).response.status)
    && net(url).response.body.Text?
    && parses(net(url).response.body.text)
  }

  /** A check passes exactly when its document is acceptable. */
  lemma CheckJsonPassesIff(net: string -> Fetched, parses: string -> bool, doc: Document, url: string)
    ensures CheckJson(net, parses, doc, url).Pass? <==> Acceptable(net, parses, url)
  {
  }

  /** Validation passes exactly when the config is acceptable and, for a custom endpoint,
      the API metadata is too. */
  lemma ValidationPassesIff(net: string -> Fetched, parses: string -> bool, endpoint: string,
                            modelId: string, isCustom: bool, revision: string)
    ensures ValidateModelEndpoint(net, parses, endpoint, modelId, isCustom, revision).outcome.Pass? <==>
      && (isCustom ==> Acceptable(net, parses, ApiUrl(endpoint, modelId)))
      && Acceptable(net, parses, ConfigUrl(endpoint, modelId, revision))
  {
    CheckJsonPassesIff(net, parses, ApiMetadata, ApiUrl(endpoint, modelId));
    CheckJsonPassesIff(net, parses, ConfigFile, ConfigUrl(endpoint, modelId, revision));
  }

  /** The API URL is requested first, and only for a custom endpoint; the config URL is
      requested last, unless the API check already failed. */
  lemma RequestOrder(net: string -> Fetched, parses: string -> bool, endpoint: string,
                     modelId: string, isCustom: bool, revision: string)
    ensures var v := ValidateModelEndpoint(net, parses, endpoint, modelId, isCustom, revision);
      && (!isCustom ==> v.requested == [ConfigUrl(endpoint, modelId, revision)])
      && (isCustom ==> 1 <= |v.requested| <= 2 && v.requested[0] == ApiUrl(endpoint, modelId))
      && (isCustom ==> (|v.requested| == 2 <==> Acceptable(net, parses, ApiUrl(endpoint, modelId))))
      && (|v.requested| == 2 ==> v.requested[1] == ConfigUrl(endpoint, modelId, revision))
  {
    CheckJsonPassesIff(net, parses, ApiMetadata, ApiUrl(endpoint, modelId));
  }

  /** A non-OK status fails with the status message before the body is looked at: the
      body and the JSON oracle do not matter. */
  lemma StatusBeforeBody(net: string -> Fetched, parses: string -> bool, doc: Document, url: string)
    requires net(url).Received? && !IsOk(net(url).response.status)
    ensures CheckJson(net, parses, doc, url) == Fail(StatusMessage(doc, url, net(url).response.status))
  {
  }

  /** A rejected fetch, and an OK response whose body cannot be read, fail with the error
      they carry, whatever the JSON oracle and the HTML sniff would say. */
  lemma OwnErrorsPassThrough(net: string -> Fetched, parses: string -> bool, doc: Document, url: string)
    ensures net(url).Rejected? ==> CheckJson(net, parses, doc, url) == Fail(net(url).reason)
    ensures net(url).Received? && IsOk(net(url).response.status) && net(url).response.body.Unreadable? ==>
      CheckJson(net, parses, doc, url) == Fail(net(url).response.body.reason)
  {
  }

  /** The status message names the URL and the status. */
  lemma StatusMessageNamesUrlAndStatus(doc: Document, url: string, status: int)
    ensures Contains(StatusMessage(doc, url, status), url)
    ensures Contains(StatusMessage(doc, url, status), IntToString(status))
  {
    var code := IntToString(status);
    match doc
    case ApiMetadata =>
      var head := "El endpoint no es compatible con la API de HF: ";
      assert StatusMessage(doc, url, status) == head + url + (" → HTTP " + code + ".");
      ContainsMiddle(head, url, " → HTTP " + code + ".");
      assert StatusMessage(doc, url, status) == (head + url + " → HTTP ") + code + ".";
      ContainsMiddle(head + url + " → HTTP ", code, ".");
    case ConfigFile =>
      var head := "No se encontró config.json en ";
      assert StatusMessage(doc, url, status) == head + url + (" (HTTP " + code + ").");
      ContainsMiddle(head, url, " (HTTP " + code + ").");
      assert StatusMessage(doc, url, status) == (head + url + " (HTTP ") + code + ").";
      ContainsMiddle(head + url + " (HTTP ", code, ").");
  }

  /** An OK body that does not parse and starts with `<` gets the HTML message, whatever
      the content type says. */
  lemma MarkupGetsHtmlMessage(net: string -> Fetched, parses: string -> bool, doc: Document, url: string)
    requires net(url).Received? && IsOk(net(url).response.status)
    requires net(url).response.body.Text?
    requires var body := net(url).response.body.text; !parses(body) && body != [] && body[0] == '<'
    ensures CheckJson(net, parses, doc, url) == Fail(HtmlMessage(doc))
  {
    var res := net(url).response;
    LeadingAngleIsHtml(res.contentType, res.body.text, ValidatorSnippetLength);
  }

  /** An OK body that does not parse and does not sniff as HTML gets the not-JSON message. */
  lemma OtherTextGetsNotJsonMessage(net: string -> Fetched, parses: string -> bool, doc: Document, url: string)
    requires net(url).Received? && IsOk(net(url).response.status)
    requires net(url).response.body.Text?
    requires !parses(net(url).response.body.text)
    requires !LooksHtml(net(url).response.contentType, net(url).response.body.text, ValidatorSnippetLength)
    ensures CheckJson(net, parses, doc, url) == Fail(NotJsonMessage(doc))
  {
  }

  /** The config URL is a `/resolve/` URL under the endpoint, so the artifact wrapper
      inspects the same document when the model later loads it. */
  lemma ConfigUrlIsResolveUrl(endpoint: string, modelId: string, revision: string)
    ensures StartsWith(ConfigUrl(endpoint, modelId, revision), endpoint)
    ensures Contains(ConfigUrl(endpoint, modelId, revision), "/resolve/")
  {
    var path := RepoPath(modelId);
    StartsWithAppend(endpoint, "/");
    StartsWithExtend(endpoint + "/", endpoint, path);
    StartsWithExtend(endpoint + "/" + path, endpoint, "/resolve/");
    StartsWithExtend(endpoint + "/" + path + "/resolve/", endpoint, revision);
    StartsWithExtend(endpoint + "/" + path + "/resolve/" + revision, endpoint, "/config.json");
    ContainsEnd(endpoint + "/" + path, "/resolve/");
    ContainsExtend(endpoint + "/" + path + "/resolve/", "/resolve/", revision);
    ContainsExtend(endpoint + "/" + path + "/resolve/" + revision, "/resolve/", "/config.json");
  }
}
