/**
 * Choosing the endpoint models are loaded from, inside `loadModel` (app.js:380-453):
 * normalising a custom base URL, validating the endpoint with a single failover from
 * the default Hub to a fixed mirror, rewriting HTML-related error messages, and the
 * state `loadModel` leaves behind (`env.HF_ENDPOINT`, `generator`, the status line).
 */
module Endpoint {
  import opened Wrappers
  import opened Text
  import opened Http
  import opened Validation
  import Artifacts

  const DefaultEndpoint := "https://huggingface.co"
  const MirrorEndpoint := "https://hf-mirror.com"

  const EmptyBaseUrlMessage := "URL base vacía. Desmarca \"Usar URL base personalizada\" o provee una URL válida."

  /** The custom base URL as `loadModel` normalises it (app.js:393-401): trimmed, empty
      rejected, `https://` put in front of the input stripped of leading slashes when it
      has no `http(s)://` scheme in any case, trailing slashes removed. */
  function NormaliseBaseUrl(input: string): Result<string> {
    var url := Trim(input);
    if url == [] then Err(EmptyBaseUrlMessage)
    else
      var withScheme := if HasHttpScheme(url) then url else "https://" + TrimStart(url, Slash);
      Ok(TrimEnd(withScheme, Slash))
  }

  /** Only an input that is blank once trimmed is rejected. */
  lemma NormaliseRejectsOnlyBlank(input: string)
    ensures NormaliseBaseUrl(input).Err? <==> Trim(input) == []
    ensures NormaliseBaseUrl(input).Err? ==> NormaliseBaseUrl(input).error == EmptyBaseUrlMessage
  {
  }

  /** A result never ends with a slash and never starts with whitespace. */
  lemma NormalisedShape(input: string)
    requires NormaliseBaseUrl(input).Ok?
    ensures var r := NormaliseBaseUrl(input).value;
      r != [] && (r[0] == 'h' || r[0] == 'H') && r[|r| - 1] != '/'
  {
    var url := Trim(input);
    var withScheme := if HasHttpScheme(url) then url else "https://" + TrimStart(url, Slash);
    if HasHttpScheme(url) {
      SchemeFirstChar(url);
    }
    assert withScheme[0] == 'h' || withScheme[0] == 'H';
  }

  /** `https://` with its slashes stripped. */
  lemma BareSchemeTrimmed()
    ensures TrimEnd("https://", Slash) == "https:"
  {
    assert "https://"[..7] == "https:/";
    assert "https:/"[..6] == "https:";
    TrimEndNoop("https:", Slash);
  }

  /** A host given without a scheme gets `https://` and loses the slashes around it. */
  lemma BareHostGetsHttps(input: string)
    requires Trim(input) != [] && !HasHttpScheme(Trim(input))
    requires TrimStart(Trim(input), Slash) != []
    ensures NormaliseBaseUrl(input) == Ok("https://" + TrimEnd(TrimStart(Trim(input), Slash), Slash))
  {
    HttpsBeforeHost(TrimStart(Trim(input), Slash));
  }

  lemma HttpsBeforeHost(host: string)
    requires host != [] && host[0] != '/'
    ensures TrimEnd("https://" + host, Slash) == "https://" + TrimEnd(host, Slash)
  {
    TrimEndBehind("https://", host, Slash);
  }

  /** Degenerate input made only of slashes normalises to `https:`, which has no scheme
      left. */
  lemma SlashesGiveBareScheme(input: string)
    requires Trim(input) != [] && !HasHttpScheme(Trim(input))
    requires TrimStart(Trim(input), Slash) == []
    ensures NormaliseBaseUrl(input) == Ok("https:")
  {
    BareSchemeTrimmed();
    assert "https://" + TrimStart(Trim(input), Slash) == "https://";
  }

  /** A URL with a scheme whose last character is neither whitespace nor a slash is left
      unchanged. */
  lemma FixedPointSufficient(u: string)
    requires HasHttpScheme(u) && !IsSpace(u[|u| - 1]) && u[|u| - 1] != '/'
    ensures NormaliseBaseUrl(u) == Ok(u)
  {
    SchemeFirstChar(u);
    TrimStartNoop(u, Whitespace);
    TrimEndNoop(u, Whitespace);
    TrimEndNoop(u, Slash);
  }

  /** Input without a scheme is never left unchanged: it gains one. */
  lemma BareInputChanges(u: string)
    requires Trim(u) != [] && !HasHttpScheme(Trim(u))
    ensures NormaliseBaseUrl(u) != Ok(u)
  {
    if TrimStart(Trim(u), Slash) == [] {
      SlashesOnlyChange(u);
    } else {
      BareHostChanges(u);
    }
  }

  lemma SlashesOnlyChange(u: string)
    requires Trim(u) != [] && !HasHttpScheme(Trim(u))
    requires TrimStart(Trim(u), Slash) == []
    ensures NormaliseBaseUrl(u) != Ok(u)
  {
    SlashesGiveBareScheme(u);
    BareSchemeIsStable();
  }

  lemma BareSchemeIsStable()
    ensures Trim("https:") == "https:" && TrimStart("https:", Slash) != []
  {
    TrimStartNoop("https:", Whitespace);
    TrimEndNoop("https:", Whitespace);
    TrimStartNoop("https:", Slash);
  }

  lemma BareHostChanges(u: string)
    requires Trim(u) != [] && !HasHttpScheme(Trim(u))
    requires TrimStart(Trim(u), Slash) != []
    ensures NormaliseBaseUrl(u) != Ok(u)
  {
    BareHostGetsHttps(u);
    HttpsInputKeepsScheme(TrimEnd(TrimStart(Trim(u), Slash), Slash));
  }

  /** Trimming a string that starts with `https://` leaves the scheme in place. */
  lemma HttpsInputKeepsScheme(tail: string)
    ensures HasHttpScheme(Trim("https://" + tail))
  {
    var s := "https://" + tail;
    assert s[0] == 'h';
    TrimStartNoop(s, Whitespace);
    TrimEndAppend("https://", tail, Whitespace);
    HttpsPrefixHasScheme(TrimEnd(tail, Whitespace));
  }

  /** The inputs normalisation leaves unchanged: exactly those with a scheme whose last
      character is neither whitespace nor a slash. */
  lemma FixedPointIff(u: string)
    ensures NormaliseBaseUrl(u) == Ok(u) <==> HasHttpScheme(u) && !IsSpace(u[|u| - 1]) && u[|u| - 1] != '/'
  {
    if HasHttpScheme(u) && !IsSpace(u[|u| - 1]) && u[|u| - 1] != '/' {
      FixedPointSufficient(u);
    }
    if NormaliseBaseUrl(u) == Ok(u) {
      var url := Trim(u);
      if HasHttpScheme(url) {
        assert u == TrimEnd(url, Slash);
        assert u == url;
      } else {
        BareInputChanges(u);
      }
    }
  }

  /** Normalising a normalised URL again changes it exactly when it ends in whitespace
      that the first pass protected behind a trailing slash, or it lost its scheme. */
  lemma RenormaliseIff(input: string, r: string)
    requires NormaliseBaseUrl(input) == Ok(r)
    ensures NormaliseBaseUrl(r) == Ok(r) <==> HasHttpScheme(r) && !IsSpace(r[|r| - 1])
  {
    NormalisedShape(input);
    RenormaliseSlashless(r);
  }

  lemma RenormaliseSlashless(r: string)
    requires r != [] && r[|r| - 1] != '/'
    ensures NormaliseBaseUrl(r) == Ok(r) <==> HasHttpScheme(r) && !IsSpace(r[|r| - 1])
  {
    FixedPointIff(r);
  }

  /** `a /` normalises to `https://a `, which normalises to `https://a`: normalisation is
      not idempotent. */
  lemma NormaliseNotIdempotent()
    ensures NormaliseBaseUrl("a /") == Ok("https://a ")
    ensures NormaliseBaseUrl("https://a ") == Ok("https://a")
  {
    SpaceBeforeSlashSurvives();
    TrailingSpaceTrimmedNextTime();
  }

  lemma SpaceBeforeSlashSurvives()
    ensures NormaliseBaseUrl("a /") == Ok("https://a ")
  {
    var input := "a /";
    BareSpaceSlashInput();
    assert NormaliseBaseUrl(input) == Ok(TrimEnd("https://" + input, Slash));
    SlashAfterSpaceTrimmed();
  }

  lemma BareSpaceSlashInput()
    ensures Trim("a /") == "a /" && !HasHttpScheme("a /") && TrimStart("a /", Slash) == "a /"
  {
    var input := "a /";
    TrimStartNoop(input, Whitespace);
    TrimEndNoop(input, Whitespace);
    assert |Lower(input)| == 3;
    TrimStartNoop(input, Slash);
  }

  lemma SlashAfterSpaceTrimmed()
    ensures TrimEnd("https://" + "a /", Slash) == "https://a "
  {
    var once := "https://" + "a /";
    assert once[..|once| - 1] == "https://a ";
    TrimEndNoop("https://a ", Slash);
  }

  lemma TrailingSpaceTrimmedNextTime()
    ensures NormaliseBaseUrl("https://a ") == Ok("https://a")
  {
    var r := "https://a ";
    TrimStartNoop(r, Whitespace);
    assert r[..|r| - 1] == "https://a";
    TrimEndNoop("https://a", Whitespace);
    HttpsPrefixHasScheme("a");
    assert "https://a" == "https://" + "a";
    TrimEndNoop("https://a", Slash);
  }

  /** The endpoints validated, in order, and the one chosen (app.js:406-423). */
  datatype Selection = Selection(chosen: Result<string>, validated: seq<string>)

  /** Validation with failover: a failing non-custom endpoint gets exactly one more try,
      on the mirror, and keeps its own error if the mirror fails too. */
  function SelectEndpoint(net: string -> Fetched, parses: string -> bool, endpoint: string,
                          modelId: string, isCustom: bool): Selection
  {
    var first := ValidateModelEndpoint(net, parses, endpoint, modelId, isCustom, DefaultRevision).outcome;
    if first.Pass? then Selection(Ok(endpoint), [endpoint])
    else if isCustom then Selection(Err(first.error), [endpoint])
    else
      var second := ValidateModelEndpoint(net, parses, MirrorEndpoint, modelId, false, DefaultRevision).outcome;
      Selection(if second.Pass? then Ok(MirrorEndpoint) else Err(first.error), [endpoint, MirrorEndpoint])
  }

  /** Whether an endpoint serves the model's config (and, when custom, its API metadata). */
  predicate Serves(net: string -> Fetched, parses: string -> bool, endpoint: string, modelId: string, isCustom: bool) {
    && (isCustom ==> Acceptable(net, parses, ApiUrl(endpoint, modelId)))
    && Acceptable(net, parses, ConfigUrl(endpoint, modelId, DefaultRevision))
  }

  /** A custom endpoint is validated once and is never replaced by the mirror. */
  lemma CustomEndpointNeverFailsOver(net: string -> Fetched, parses: string -> bool, endpoint: string, modelId: string)
    ensures var sel := SelectEndpoint(net, parses, endpoint, modelId, true);
      && sel.validated == [endpoint]
      && (sel.chosen.Ok? <==> Serves(net, parses, endpoint, modelId, true))
      && (sel.chosen.Ok? ==> sel.chosen.value == endpoint)
      && (sel.chosen.Err? ==>
            sel.chosen.error == ValidateModelEndpoint(net, parses, endpoint, modelId, true, DefaultRevision).outcome.error)
  {
    ValidationPassesIff(net, parses, endpoint, modelId, true, DefaultRevision);
  }

  /** The default endpoint is kept when it serves the model; otherwise the mirror is
      validated exactly once and chosen when it serves the model; otherwise the first
      error is reported. */
  lemma DefaultEndpointFailover(net: string -> Fetched, parses: string -> bool, modelId: string)
    ensures var sel := SelectEndpoint(net, parses, DefaultEndpoint, modelId, false);
      && (Serves(net, parses, DefaultEndpoint, modelId, false) ==>
            sel == Selection(Ok(DefaultEndpoint), [DefaultEndpoint]))
      && (!Serves(net, parses, DefaultEndpoint, modelId, false) ==>
            && sel.validated == [DefaultEndpoint, MirrorEndpoint]
            && (sel.chosen == Ok(MirrorEndpoint) <==> Serves(net, parses, MirrorEndpoint, modelId, false))
            && (sel.chosen.Err? ==>
                  sel.chosen.error == ValidateModelEndpoint(net, parses, DefaultEndpoint, modelId, false, DefaultRevision).outcome.error))
  {
    ValidationPassesIff(net, parses, DefaultEndpoint, modelId, false, DefaultRevision);
    ValidationPassesIff(net, parses, MirrorEndpoint, modelId, false, DefaultRevision);
  }

  const HtmlInsteadOfJsonMessage :=
    "El servidor devolvió HTML en lugar de JSON/ONNX. Revisa \"Usar URL base personalizada\" y que tu host exponga rutas tipo /{repo}/resolve/main/*."

  /** The test `/Unexpected token <|text\/html|HTML/i` on an error message. */
  predicate MentionsHtml(message: string) {
    var m := Lower(message);
    Contains(m, "unexpected token <") || Contains(m, "text/html") || Contains(m, "html")
  }

  /** The message shown for a failed load (app.js:442-445). */
  function LoadErrorText(message: string): string {
    if MentionsHtml(message) then HtmlInsteadOfJsonMessage else message
  }

  /** Any message with `HTML` in it, in upper or lower case, is replaced. */
  lemma HtmlWordTriggersRewrite(before: string, after: string)
    ensures LoadErrorText(before + "HTML" + after) == HtmlInsteadOfJsonMessage
    ensures LoadErrorText(before + "html" + after) == HtmlInsteadOfJsonMessage
  {
    LowerAppend(before + "HTML", after);
    LowerAppend(before, "HTML");
    LowerAppend(before + "html", after);
    LowerAppend(before, "html");
    assert Lower("HTML") == "html";
    assert Lower("html") == "html";
    ContainsMiddle(Lower(before), "html", Lower(after));
  }

  /** The specific messages of the validator and of the artifact wrapper are all replaced
      by the generic one. */
  lemma SpecificHtmlMessagesRewritten(url: string)
    ensures LoadErrorText(HtmlMessage(ApiMetadata)) == HtmlInsteadOfJsonMessage
    ensures LoadErrorText(HtmlMessage(ConfigFile)) == HtmlInsteadOfJsonMessage
    ensures LoadErrorText(Artifacts.InvalidArtifactMessage(url)) == HtmlInsteadOfJsonMessage
  {
    ApiHtmlMessageRewritten();
    ConfigHtmlMessageRewritten();
    ArtifactMessageRewritten(url);
  }

  /** A message holding `html`, in any case, at a known position is replaced. */
  lemma HtmlAtTriggersRewrite(message: string, i: nat)
    requires i + 4 <= |message|
    requires LowerChar(message[i]) == 'h' && LowerChar(message[i + 1]) == 't'
    requires LowerChar(message[i + 2]) == 'm' && LowerChar(message[i + 3]) == 'l'
    ensures LoadErrorText(message) == HtmlInsteadOfJsonMessage
  {
    var m := Lower(message);
    assert m[i..i + 4] == "html";
    assert OccursAt(m, "html", i);
  }

  /** The first alternative of the test: `Unexpected token <`, in any case, at a known
      position, is replaced even when the message says nothing else about HTML. */
  lemma UnexpectedTokenAtTriggersRewrite(message: string, i: nat)
    requires i + 18 <= |message| && Lower(message[i..i + 18]) == "unexpected token <"
    ensures LoadErrorText(message) == HtmlInsteadOfJsonMessage
  {
    var m := Lower(message);
    assert m[i..i + 18] == Lower(message[i..i + 18]);
    assert OccursAt(m, "unexpected token <", i);
  }

  /** The complaint of `JSON.parse` about a page of markup (`Unexpected token < in JSON at
      position 0`), wherever it sits in the message, is replaced. */
  lemma JsonParseMessageRewritten(before: string, after: string)
    ensures LoadErrorText(before + "Unexpected token <" + after) == HtmlInsteadOfJsonMessage
  {
    var message := before + "Unexpected token <" + after;
    assert message[|before|..|before| + 18] == "Unexpected token <";
    UnexpectedTokenAtTriggersRewrite(message, |before|);
  }

  lemma ApiHtmlMessageRewritten()
    ensures LoadErrorText(HtmlMessage(ApiMetadata)) == HtmlInsteadOfJsonMessage
  {
    HtmlAtTriggersRewrite(HtmlMessage(ApiMetadata), 21);
  }

  lemma ConfigHtmlMessageRewritten()
    ensures LoadErrorText(HtmlMessage(ConfigFile)) == HtmlInsteadOfJsonMessage
  {
    HtmlAtTriggersRewrite(HtmlMessage(ConfigFile), 42);
  }

  lemma ArtifactMessageRewritten(url: string)
    ensures LoadErrorText(Artifacts.InvalidArtifactMessage(url)) == HtmlInsteadOfJsonMessage
  {
    HtmlAtTriggersRewrite(Artifacts.InvalidArtifactMessage(url), 20);
  }

  /** A message without the letter `h` in either case and without `<` is shown as it is. */
  lemma NoLetterHKept(message: string)
    requires 'h' !in message && 'H' !in message && '<' !in message
    ensures LoadErrorText(message) == message
  {
    assert 'h' !in Lower(message) by {
      forall i | 0 <= i < |message| ensures Lower(message)[i] != 'h' {
        assert message[i] != 'h' && message[i] != 'H';
      }
    }
    assert '<' !in Lower(message) by {
      forall i | 0 <= i < |message| ensures Lower(message)[i] != '<' {
        assert message[i] != '<';
      }
    }
    AbsentNotContained(Lower(message), "unexpected token <", 17);
    AbsentNotContained(Lower(message), "text/html", 5);
    AbsentNotContained(Lower(message), "html", 0);
  }

  const EmptyModelIdAlert := "Ingresa el ID del modelo, por ejemplo Xenova/gpt2"
  const LoadAlertPrefix := "Error cargando el modelo: "
  const NotLoadedStatus := "Modelo no cargado."

  function ReadyStatus(modelId: string, endpoint: string): string {
    "Modelo listo: " + modelId + " (endpoint: " + endpoint + ")"
  }

  /** A text-generation pipeline instance, known by its identity. */
  type Generator = nat

  /** The form fields `loadModel` reads. */
  datatype LoadForm = LoadForm(modelIdInput: string, useBaseUrl: bool, baseUrlInput: string, useQuantized: bool)

  /** The state `loadModel` may change: `env.HF_ENDPOINT`, `generator`, the status line. */
  datatype HubState = HubState(hfEndpoint: string, generator: Option<Generator>, status: string)

  /** The state after a call, and the alert it raised, if any. */
  datatype LoadReport = LoadReport(state: HubState, alert: Option<string>)

  /** The endpoint before validation: the default Hub, or the normalised custom base URL. */
  function RequestedEndpoint(form: LoadForm): Result<string> {
    if form.useBaseUrl then NormaliseBaseUrl(form.baseUrlInput) else Ok(DefaultEndpoint)
  }

  function LoadFailed(s: HubState, error: string): LoadReport {
    LoadReport(s.(status := NotLoadedStatus), Some(LoadAlertPrefix + LoadErrorText(error)))
  }

  /** `loadModel` as a function of the form, the network, `JSON.parse`, the pipeline
      factory (model id, endpoint, quantized) and the state before. */
  function LoadModelSpec(form: LoadForm, net: string -> Fetched, parses: string -> bool,
                         build: (string, string, bool) -> Result<Generator>, s: HubState): LoadReport
  {
    var modelId := Trim(form.modelIdInput);
    if modelId == [] then LoadReport(s, Some(EmptyModelIdAlert))
    else match RequestedEndpoint(form)
      case Err(e) => LoadFailed(s, e)
      case Ok(endpoint) =>
        Conclude(s.(hfEndpoint := endpoint), modelId,
                 SelectEndpoint(net, parses, endpoint, modelId, form.useBaseUrl).chosen, form.useQuantized, build)
  }

  /** The end of `loadModel` once the endpoint is validated (or not): the pipeline is built
      on the chosen endpoint, which `env.HF_ENDPOINT` already holds. */
  function Conclude(s: HubState, modelId: string, chosen: Result<string>, quantized: bool,
                    build: (string, string, bool) -> Result<Generator>): LoadReport
  {
    match chosen
    case Err(e) => LoadFailed(s, e)
    case Ok(endpoint) =>
      match build(modelId, endpoint, quantized)
      case Err(e) => LoadFailed(s.(hfEndpoint := endpoint), e)
      case Ok(g) => LoadReport(HubState(endpoint, Some(g), ReadyStatus(modelId, endpoint)), None)
  }

  /** A blank model id only raises the alert. */
  lemma BlankModelIdChangesNothing(form: LoadForm, net: string -> Fetched, parses: string -> bool,
                                   build: (string, string, bool) -> Result<Generator>, s: HubState)
    requires Trim(form.modelIdInput) == []
    ensures LoadModelSpec(form, net, parses, build, s) == LoadReport(s, Some(EmptyModelIdAlert))
  {
  }

  /** A blank custom base URL fails before any validation request: the network does not
      matter, and `env.HF_ENDPOINT` and the generator are left as they were. */
  lemma BlankBaseUrlFailsBeforeValidation(form: LoadForm, net: string -> Fetched, net': string -> Fetched,
                                          parses: string -> bool, build: (string, string, bool) -> Result<Generator>, s: HubState)
    requires Trim(form.modelIdInput) != [] && form.useBaseUrl && Trim(form.baseUrlInput) == []
    ensures LoadModelSpec(form, net, parses, build, s) == LoadModelSpec(form, net', parses, build, s)
    ensures LoadModelSpec(form, net, parses, build, s) ==
      LoadReport(s.(status := NotLoadedStatus), Some(LoadAlertPrefix + LoadErrorText(EmptyBaseUrlMessage)))
  {
  }

  /** A failed load keeps the previous generator and reports through the alert, with the
      message rewritten when it mentions HTML. */
  lemma FailedLoadKeepsGenerator(form: LoadForm, net: string -> Fetched, parses: string -> bool,
                                 build: (string, string, bool) -> Result<Generator>, s: HubState)
    requires Trim(form.modelIdInput) != []
    requires LoadModelSpec(form, net, parses, build, s).alert.Some?
    ensures var r := LoadModelSpec(form, net, parses, build, s);
      && r.state.generator == s.generator
      && r.state.status == NotLoadedStatus
      && StartsWith(r.alert.value, LoadAlertPrefix)
  {
    var modelId := Trim(form.modelIdInput);
    match RequestedEndpoint(form)
    case Err(e) =>
      StartsWithAppend(LoadAlertPrefix, LoadErrorText(e));
    case Ok(endpoint) =>
      var chosen := SelectEndpoint(net, parses, endpoint, modelId, form.useBaseUrl).chosen;
      ConcludeFailure(s.(hfEndpoint := endpoint), modelId, chosen, form.useQuantized, build);
  }

  lemma ConcludeFailure(s: HubState, modelId: string, chosen: Result<string>, quantized: bool,
                        build: (string, string, bool) -> Result<Generator>)
    requires Conclude(s, modelId, chosen, quantized, build).alert.Some?
    ensures var r := Conclude(s, modelId, chosen, quantized, build);
      && r.state.generator == s.generator
      && r.state.status == NotLoadedStatus
      && StartsWith(r.alert.value, LoadAlertPrefix)
  {
    var r := Conclude(s, modelId, chosen, quantized, build);
    var e := if chosen.Err? then chosen.error else build(modelId, chosen.value, quantized).error;
    assert r.alert.value == LoadAlertPrefix + LoadErrorText(e);
    StartsWithAppend(LoadAlertPrefix, LoadErrorText(e));
  }

  /** `env.HF_ENDPOINT` is set to the requested endpoint before validation, so a failed
      validation leaves it there. */
  lemma EndpointSetBeforeValidation(form: LoadForm, net: string -> Fetched, parses: string -> bool,
                                    build: (string, string, bool) -> Result<Generator>, s: HubState)
    requires Trim(form.modelIdInput) != [] && RequestedEndpoint(form).Ok?
    requires SelectEndpoint(net, parses, RequestedEndpoint(form).value, Trim(form.modelIdInput), form.useBaseUrl).chosen.Err?
    ensures LoadModelSpec(form, net, parses, build, s).state.hfEndpoint == RequestedEndpoint(form).value
  {
  }

  /** A successful load records the generator the factory built for the chosen endpoint,
      and announces it in the status line. */
  lemma SuccessfulLoad(form: LoadForm, net: string -> Fetched, parses: string -> bool,
                       build: (string, string, bool) -> Result<Generator>, s: HubState)
    requires LoadModelSpec(form, net, parses, build, s).alert.None?
    ensures var r := LoadModelSpec(form, net, parses, build, s);
      && Trim(form.modelIdInput) != []
      && r.state.generator.Some?
      && build(Trim(form.modelIdInput), r.state.hfEndpoint, form.useQuantized) == Ok(r.state.generator.value)
      && r.state.status == ReadyStatus(Trim(form.modelIdInput), r.state.hfEndpoint)
  {
    var modelId := Trim(form.modelIdInput);
    if modelId != [] && RequestedEndpoint(form).Ok? {
      var endpoint := RequestedEndpoint(form).value;
      var chosen := SelectEndpoint(net, parses, endpoint, modelId, form.useBaseUrl).chosen;
      assert LoadModelSpec(form, net, parses, build, s) ==
        Conclude(s.(hfEndpoint := endpoint), modelId, chosen, form.useQuantized, build);
      ConcludeBuilt(s.(hfEndpoint := endpoint), modelId, chosen, form.useQuantized, build);
    }
  }

  lemma ConcludeBuilt(s: HubState, modelId: string, chosen: Result<string>, quantized: bool,
                      build: (string, string, bool) -> Result<Generator>)
    requires Conclude(s, modelId, chosen, quantized, build).alert.None?
    ensures var r := Conclude(s, modelId, chosen, quantized, build);
      && chosen.Ok? && r.state.hfEndpoint == chosen.value
      && r.state.generator.Some?
      && build(modelId, chosen.value, quantized) == Ok(r.state.generator.value)
      && r.state.status == ReadyStatus(modelId, chosen.value)
  {
  }

  /** A load that succeeds with a custom base URL uses that URL, normalised; otherwise it
      uses the default Hub or the mirror. */
  lemma LoadedEndpoint(form: LoadForm, net: string -> Fetched, parses: string -> bool,
                       build: (string, string, bool) -> Result<Generator>, s: HubState)
    requires LoadModelSpec(form, net, parses, build, s).alert.None?
    ensures var r := LoadModelSpec(form, net, parses, build, s);
      && (form.useBaseUrl ==> r.state.hfEndpoint == NormaliseBaseUrl(form.baseUrlInput).value)
      && (!form.useBaseUrl ==> r.state.hfEndpoint in {DefaultEndpoint, MirrorEndpoint})
  {
    var modelId := Trim(form.modelIdInput);
    var endpoint := RequestedEndpoint(form).value;
    var chosen := SelectEndpoint(net, parses, endpoint, modelId, form.useBaseUrl).chosen;
    assert LoadModelSpec(form, net, parses, build, s) ==
      Conclude(s.(hfEndpoint := endpoint), modelId, chosen, form.useQuantized, build);
    ConcludeSuccess(s.(hfEndpoint := endpoint), modelId, chosen, form.useQuantized, build);
    SelectedIsCandidate(net, parses, endpoint, modelId, form.useBaseUrl);
  }

  lemma ConcludeSuccess(s: HubState, modelId: string, chosen: Result<string>, quantized: bool,
                        build: (string, string, bool) -> Result<Generator>)
    requires Conclude(s, modelId, chosen, quantized, build).alert.None?
    ensures chosen.Ok? && Conclude(s, modelId, chosen, quantized, build).state.hfEndpoint == chosen.value
  {
  }

  /** The chosen endpoint is the one validated first, or the mirror for a non-custom one. */
  lemma SelectedIsCandidate(net: string -> Fetched, parses: string -> bool, endpoint: string,
                            modelId: string, isCustom: bool)
    requires SelectEndpoint(net, parses, endpoint, modelId, isCustom).chosen.Ok?
    ensures var c := SelectEndpoint(net, parses, endpoint, modelId, isCustom).chosen.value;
      c == endpoint || (!isCustom && c == MirrorEndpoint)
  {
  }

  /** Once validation settled, what `env.HF_ENDPOINT` held before does not matter: a
      failure keeps the requested endpoint, a success records the chosen one. */
  lemma ConcludeIgnoresEndpoint(s: HubState, held: string, requested: string, modelId: string,
                                chosen: Result<string>, quantized: bool,
                                build: (string, string, bool) -> Result<Generator>)
    requires chosen.Err? ==> held == requested
    ensures Conclude(s.(hfEndpoint := held), modelId, chosen, quantized, build) ==
            Conclude(s.(hfEndpoint := requested), modelId, chosen, quantized, build)
  {
  }

  /** The module state `loadModel` and `unloadModel` change. */
  class HubEnv {
    var hfEndpoint: string
    var generator: Option<Generator>
    var status: string

    /** The page as it starts (app.js:564): no generator and the not-loaded status. */
    constructor (endpoint: string)
      ensures hfEndpoint == endpoint && generator == None && status == NotLoadedStatus
    {
      hfEndpoint, generator, status := endpoint, None, NotLoadedStatus;
    }

    function State(): HubState
      reads this
    {
      HubState(hfEndpoint, generator, status)
    }

    /** `loadModel`: returns the alert it raised, if any. */
    method LoadModel(form: LoadForm, net: string -> Fetched, parses: string -> bool,
                     build: (string, string, bool) -> Result<Generator>) returns (alert: Option<string>)
      modifies this
      ensures LoadReport(State(), alert) == LoadModelSpec(form, net, parses, build, old(State()))
    {
      ghost var s0 := State();
      var modelId := Trim(form.modelIdInput);
      if modelId == [] {
        alert := Some(EmptyModelIdAlert);
        return;
      }
      var endpoint := DefaultEndpoint;
      if form.useBaseUrl {
        var normalised := NormaliseBaseUrl(form.baseUrlInput);
        if normalised.Err? {
          alert := ReportFailure(normalised.error);
          return;
        }
        endpoint := normalised.value;
      }
      assert RequestedEndpoint(form) == Ok(endpoint);
      var chosen := ValidateWithFailover(net, parses, endpoint, modelId, form.useBaseUrl);
      ConcludeIgnoresEndpoint(s0, if chosen.Ok? then chosen.value else endpoint, endpoint,
                              modelId, chosen, form.useQuantized, build);
      alert := Complete(modelId, chosen, form.useQuantized, build);
    }

    /** The rest of `loadModel` once validation settled: build the pipeline on
        `env.HF_ENDPOINT`, or report the failure. */
    method Complete(modelId: string, chosen: Result<string>, quantized: bool,
                    build: (string, string, bool) -> Result<Generator>) returns (alert: Option<string>)
      requires chosen.Ok? ==> hfEndpoint == chosen.value
      modifies this
      ensures LoadReport(State(), alert) == Conclude(old(State()), modelId, chosen, quantized, build)
    {
      if chosen.Err? {
        alert := ReportFailure(chosen.error);
        return;
      }
      var built := build(modelId, hfEndpoint, quantized);
      if built.Err? {
        alert := ReportFailure(built.error);
        return;
      }
      generator := Some(built.value);
      status := ReadyStatus(modelId, hfEndpoint);
      alert := None;
    }

    /** Sets `env.HF_ENDPOINT`, validates, and on a failing non-custom endpoint tries the
        mirror once, switching `env.HF_ENDPOINT` to it when it validates. */
    method ValidateWithFailover(net: string -> Fetched, parses: string -> bool, endpoint: string,
                                modelId: string, isCustom: bool) returns (chosen: Result<string>)
      modifies this
      ensures chosen == SelectEndpoint(net, parses, endpoint, modelId, isCustom).chosen
      ensures State() == old(State()).(hfEndpoint := if chosen.Ok? then chosen.value else endpoint)
    {
      hfEndpoint := endpoint;
      var first := ValidateModelEndpoint(net, parses, endpoint, modelId, isCustom, DefaultRevision).outcome;
      if first.Pass? {
        return Ok(endpoint);
      }
      if isCustom {
        return Err(first.error);
      }
      var second := ValidateModelEndpoint(net, parses, MirrorEndpoint, modelId, false, DefaultRevision).outcome;
      if second.Fail? {
        return Err(first.error);
      }
      hfEndpoint := MirrorEndpoint;
      chosen := Ok(MirrorEndpoint);
    }

    /** The `catch` of `loadModel`: the status line says the model is not loaded and the
        alert carries the message, rewritten when it mentions HTML. */
    method ReportFailure(error: string) returns (alert: Option<string>)
      modifies this
      ensures LoadReport(State(), alert) == LoadFailed(old(State()), error)
    {
      status := NotLoadedStatus;
      alert := Some(LoadAlertPrefix + LoadErrorText(error));
    }

    /** `unloadModel` (app.js:453-459). */
    method UnloadModel()
      modifies this
      ensures State() == old(State()).(generator := None, status := "Modelo descargado.")
    {
      generator := None;
      status := "Modelo descargado.";
    }
  }
}
