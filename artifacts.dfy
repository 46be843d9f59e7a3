/**
 * The `env.fetch` wrapper the model loader uses for every artifact (app.js:117-187):
 * a `/resolve/` artifact that comes back non-OK or looking like an HTML page is retried
 * once on the public mirror when it was asked of the default Hub, and otherwise turned
 * into a clear error. The underlying `fetch` is an oracle from URL to `Fetched`.
 */
module Artifacts {
  import opened Wrappers
  import opened Text
  import opened Http

  const Hub := "https://huggingface.co"
  const Mirror := "https://hf-mirror.com"

  /** `urlStr.replace(HF, MIRROR)` on a URL that starts with the Hub prefix: replacing the
      mirror prefix back by the Hub prefix gives the original URL, so the mirror is asked
      for the very same path. */
  function MirrorUrl(url: string): (r: string)
    requires StartsWith(url, Hub)
    ensures StartsWith(r, Mirror)
    ensures Hub + r[|Mirror|..] == url
  {
    var r := Mirror + url[|Hub|..];
    StartsWithAppend(Mirror, url[|Hub|..]);
    assert r[|Mirror|..] == url[|Hub|..];
    assert url == url[..|Hub|] + url[|Hub|..];
    r
  }

  /** The text the wrapper sniffs: a body it cannot read counts as empty. */
  function SniffText(body: Body): string {
    match body
    case Text(text) => text
    case Unreadable(_) => ""
  }

  /** What a response must not be for the wrapper to hand it on as an artifact. */
  predicate Suspect(res: Response) {
    !IsOk(res.status) || LooksHtml(res.contentType, SniffText(res.body), WrapperSnippetLength)
  }

  /** The settled result of `tryMirrorIfHF`. */
  datatype MirrorAttempt =
    | NotHub                     // the URL does not start with the Hub prefix
    | MirrorRejected(reason: string)  // the mirror fetch itself rejected
    | MirrorUnusable             // the mirror answered non-OK or with HTML
    | MirrorUsable(response: Response)

  /** `tryMirrorIfHF`: only a Hub URL is retried, and a mirror response is handed back
      only when it is itself OK and not HTML. */
  function TryMirrorIfHub(net: string -> Fetched, url: string): (r: MirrorAttempt)
    ensures r.NotHub? <==> !StartsWith(url, Hub)
    ensures r.MirrorUsable? ==> StartsWith(url, Hub) && net(MirrorUrl(url)) == Received(r.response) && !Suspect(r.response)
    ensures r.MirrorRejected? ==> StartsWith(url, Hub) && net(MirrorUrl(url)) == Rejected(r.reason)
  {
    if !StartsWith(url, Hub) then NotHub
    else match net(MirrorUrl(url))
      case Rejected(reason) => MirrorRejected(reason)
      case Received(res) => if Suspect(res) then MirrorUnusable else MirrorUsable(res)
  }

  /** The error thrown when neither the artifact nor a mirror copy is usable. */
  function InvalidArtifactMessage(url: string): string {
    "Artefacto inválido (HTML/ERROR) para " + url +
    ". Si usas endpoint por defecto y tu red bloquea HF, prueba un mirror o desactiva filtros de red."
  }

  /** The wrapped `fetch`: the response it resolves with, or the message it rejects with.
      It rejects only with the original fetch's error, the mirror fetch's error, or the
      invalid-artifact message. */
  function WrappedFetch(net: string -> Fetched, url: string): (r: Result<Response>)
    ensures net(url).Rejected? ==> r == Err(net(url).reason)
    ensures r.Err? && net(url).Received? ==>
      r.error == InvalidArtifactMessage(url) || TryMirrorIfHub(net, url) == MirrorRejected(r.error)
  {
    match net(url)
    case Rejected(reason) => Err(reason)
    case Received(res) =>
      if !Contains(url, "/resolve/") || !Suspect(res) then Ok(res)
      else match TryMirrorIfHub(net, url)
        case MirrorUsable(m) => Ok(m)
        case MirrorRejected(reason) => Err(reason)
        case _ => Err(InvalidArtifactMessage(url))
  }

  /** Anything that is not a `/resolve/` artifact is handed on untouched, even non-OK. */
  lemma OtherUrlsPassThrough(net: string -> Fetched, url: string)
    requires !Contains(url, "/resolve/")
    ensures WrappedFetch(net, url) == match net(url) case Rejected(r) => Err(r) case Received(res) => Ok(res)
  {
  }

  /** A response that is OK and does not look like HTML is handed on unchanged, whatever
      the URL. */
  lemma CleanResponsePassesThrough(net: string -> Fetched, url: string)
    requires net(url).Received? && !Suspect(net(url).response)
    ensures WrappedFetch(net, url) == Ok(net(url).response)
  {
  }

  /** A suspect `/resolve/` artifact asked of the Hub is replaced by the mirror's copy
      whenever that copy is OK and does not look like HTML. */
  lemma MirrorReplacesSuspectArtifact(net: string -> Fetched, url: string)
    requires net(url).Received? && Contains(url, "/resolve/") && Suspect(net(url).response)
    requires StartsWith(url, Hub) && net(MirrorUrl(url)).Received? && !Suspect(net(MirrorUrl(url)).response)
    ensures WrappedFetch(net, url) == Ok(net(MirrorUrl(url)).response)
  {
  }

  /** A `/resolve/` artifact the wrapper delivers is OK and does not look like HTML,
      whether it came from the original host or from the mirror. */
  lemma DeliveredArtifactsAreClean(net: string -> Fetched, url: string)
    requires Contains(url, "/resolve/")
    requires WrappedFetch(net, url).Ok?
    ensures !Suspect(WrappedFetch(net, url).value)
    ensures WrappedFetch(net, url).value == net(url).response ||
            (StartsWith(url, Hub) && net(MirrorUrl(url)) == Received(WrappedFetch(net, url).value))
  {
  }

  /** When the wrapper gives up on a suspect artifact, its message names the original URL;
      a mirror that could not be reached at all surfaces its own error instead. */
  lemma GiveUpNamesUrl(net: string -> Fetched, url: string)
    requires net(url).Received? && Contains(url, "/resolve/") && Suspect(net(url).response)
    requires !TryMirrorIfHub(net, url).MirrorUsable?
    ensures TryMirrorIfHub(net, url).MirrorRejected? ==>
      WrappedFetch(net, url) == Err(TryMirrorIfHub(net, url).reason)
    ensures !TryMirrorIfHub(net, url).MirrorRejected? ==>
      WrappedFetch(net, url) == Err(InvalidArtifactMessage(url)) && Contains(InvalidArtifactMessage(url), url)
  {
    ContainsMiddle("Artefacto inválido (HTML/ERROR) para ", url,
      ". Si usas endpoint por defecto y tu red bloquea HF, prueba un mirror o desactiva filtros de red.");
  }
}
