/**
 * Loading the inference runtime (`loadTransformers`, app.js:10-92): an optional
 * preloaded module, then ten CDN URLs followed by the same ten through the local
 * relay, each tried by dynamic import and then by fetch-and-import-from-blob,
 * stopping at the first module that exposes both `pipeline` and `env`.
 * Module loading is an oracle (`Loaders`); the module globals `pipeline` and `env`
 * are the fields of class `Runtime`.
 */
module Bootstrap {
  import opened Wrappers
  import opened Text
  import opened Http

  /** The CDN candidates, most preferred first (app.js:15-31). */
  const DirectSources: seq<string> := [
    "https://jspm.dev/@xenova/transformers@3.2.0",
    "https://jspm.dev/@xenova/transformers@3.2.1",
    "https://jspm.dev/@xenova/transformers@3.3.1",
    "https://ga.jspm.io/npm:@xenova/transformers@3.2.1/dist/transformers.min.js",
    "https://cdn.jsdelivr.net/npm/@xenova/transformers@3.2.2/dist/transformers.min.js",
    "https://cdn.jsdelivr.net/npm/@xenova/transformers@3.2.0/dist/transformers.min.js",
    "https://cdn.jsdelivr.net/npm/@xenova/transformers@3.3.1/+esm",
    "https://cdn.jsdelivr.net/npm/@xenova/transformers@latest/+esm",
    "https://esm.sh/@xenova/transformers@3.3.1?bundle",
    "https://esm.sh/@xenova/transformers@latest?bundle"
  ]

  const RelayBase := "http://localhost:5174/proxy"

  /** A candidate rewritten through the local relay: `${proxyBase}/${u}`. */
  function RelayUrl(url: string): string {
    RelayBase + "/" + url
  }

  /** The full candidate list (app.js:45-48): direct sources, then every one of them
      through the relay. It is not de-duplicated. */
  function Candidates(): (r: seq<string>)
    ensures |r| == 20
  {
    DirectSources + seq(|DirectSources|, i requires 0 <= i < |DirectSources| => RelayUrl(DirectSources[i]))
  }

  /** Some JavaScript value that is truthy; its identity is all the model needs. */
  type Capability = string

  /** The two exports the loader looks for, each absent (falsy) or present. */
  datatype Exports = Exports(pipeline: Option<Capability>, env: Option<Capability>)

  /** A module namespace: its own exports and, possibly, a `default` export holding more. */
  datatype Namespace = Namespace(own: Exports, default: Option<Exports>)

  /** `mod.pipeline || mod.default?.pipeline` */
  function PipelineOf(m: Namespace): Option<Capability> {
    if m.own.pipeline.Some? then m.own.pipeline
    else if m.default.Some? then m.default.value.pipeline
    else None
  }

  /** `mod.env || mod.default?.env` */
  function EnvOf(m: Namespace): Option<Capability> {
    if m.own.env.Some? then m.own.env
    else if m.default.Some? then m.default.value.env
    else None
  }

  /** The gate `if (pipeline && env)`. */
  predicate Usable(m: Namespace) {
    PipelineOf(m).Some? && EnvOf(m).Some?
  }

  /** Each capability may come from the module itself or from its `default` export,
      independently of the other. */
  lemma UsableIffBothFound(m: Namespace)
    ensures Usable(m) <==>
      && (m.own.pipeline.Some? || (m.default.Some? && m.default.value.pipeline.Some?))
      && (m.own.env.Some? || (m.default.Some? && m.default.value.env.Some?))
  {
  }

  datatype Strategy = Import | Blob

  /** One cell of the (candidate x strategy) matrix. */
  datatype Attempt = Attempt(url: string, strategy: Strategy)

  /** A settled load: a namespace, or the message of the error caught. */
  datatype LoadOutcome = Loaded(namespace: Namespace) | LoadFailed(message: string)

  /** The oracles standing for dynamic `import(url)`, `fetch(url)`, and importing the
      fetched text as a blob module. */
  datatype Loaders = Loaders(
    importUrl: string -> LoadOutcome,
    fetch: string -> Fetched,
    importCode: string -> LoadOutcome)

  /** `tryBlob` (app.js:54-65): a non-OK status fails with `HTTP <status>`. */
  function TryBlob(l: Loaders, url: string): LoadOutcome {
    match l.fetch(url)
    case Rejected(reason) => LoadFailed(reason)
    case Received(res) =>
      if !IsOk(res.status) then LoadFailed("HTTP " + IntToString(res.status))
      else match res.body
        case Unreadable(reason) => LoadFailed(reason)
        case Text(code) => l.importCode(code)
  }

  /** How a blob attempt ends: a rejected fetch and an unreadable body fail with their own
      reason, a non-OK status fails with `HTTP <status>` whatever the body, and only an OK
      body reaches the module loader. */
  lemma TryBlobOutcomes(l: Loaders, url: string)
    ensures l.fetch(url).Rejected? ==> TryBlob(l, url) == LoadFailed(l.fetch(url).reason)
    ensures l.fetch(url).Received? && !IsOk(l.fetch(url).response.status) ==>
      TryBlob(l, url) == LoadFailed("HTTP " + IntToString(l.fetch(url).response.status))
    ensures l.fetch(url).Received? && IsOk(l.fetch(url).response.status) ==>
      match l.fetch(url).response.body
      case Unreadable(reason) => TryBlob(l, url) == LoadFailed(reason)
      case Text(code) => TryBlob(l, url) == l.importCode(code)
  {
  }

  function TryLoad(l: Loaders, a: Attempt): LoadOutcome {
    match a.strategy
    case Import => l.importUrl(a.url)
    case Blob => TryBlob(l, a.url)
  }

  /** The attempts in the order the nested loops make them: candidate-major,
      import before blob. */
  function Attempts(candidates: seq<string>): (r: seq<Attempt>)
    ensures |r| == 2 * |candidates|
  {
    if candidates == [] then []
    else [Attempt(candidates[0], Import), Attempt(candidates[0], Blob)] + Attempts(candidates[1..])
  }

  /** Strategy `j` on candidate `i` is attempt number `2 * i + j`. */
  lemma {:induction false} AttemptAt(candidates: seq<string>, i: nat, j: nat)
    requires i < |candidates| && j < 2
    ensures 2 * i + j < |Attempts(candidates)|
    ensures Attempts(candidates)[2 * i + j] == Attempt(candidates[i], [Import, Blob][j])
    decreases i
  {
    if i > 0 {
      AttemptAt(candidates[1..], i - 1, j);
    }
  }

  function AllAttempts(): (r: seq<Attempt>)
    ensures |r| == 40
  {
    Attempts(Candidates())
  }

  /** The first twenty attempts are the direct sources; every relay attempt comes after
      all of them, in the same source order. */
  lemma DirectBeforeRelay(k: nat)
    requires k < |AllAttempts()|
    ensures |AllAttempts()| == 40
    ensures k < 20 ==> AllAttempts()[k].url == DirectSources[k / 2]
    ensures k >= 20 ==> AllAttempts()[k].url == RelayUrl(DirectSources[k / 2 - 10])
  {
    var i, j := k / 2, k % 2;
    assert k == 2 * i + j;
    AttemptAt(Candidates(), i, j);
    if i < 10 {
      assert Candidates()[i] == DirectSources[i];
    } else {
      assert Candidates()[i] == RelayUrl(DirectSources[i - 10]);
    }
  }

  /** The module globals `pipeline` and `env`. */
  datatype Globals = Globals(pipeline: Option<Capability>, env: Option<Capability>)

  function GlobalsOf(m: Namespace): Globals {
    Globals(PipelineOf(m), EnvOf(m))
  }

  predicate LoadsUsable(l: Loaders, a: Attempt) {
    TryLoad(l, a).Loaded? && Usable(TryLoad(l, a).namespace)
  }

  predicate LoadFails(l: Loaders, a: Attempt) {
    TryLoad(l, a).LoadFailed?
  }

  /** Where a search stands: the globals, `lastErr`, whether it succeeded, and how many
      attempts it made. */
  datatype Search = Search(globals: Globals, lastErr: Option<string>, found: bool, made: nat)

  /** The search from attempt `k` on, as a fold that stops at the first usable module. */
  function SearchFrom(l: Loaders, atts: seq<Attempt>, k: nat, g: Globals, lastErr: Option<string>): (s: Search)
    requires k <= |atts|
    ensures k <= s.made <= |atts|
    decreases |atts| - k
  {
    if k == |atts| then Search(g, lastErr, false, k)
    else match TryLoad(l, atts[k])
      case LoadFailed(e) => SearchFrom(l, atts, k + 1, g, Some(e))
      case Loaded(m) =>
        if Usable(m) then Search(GlobalsOf(m), lastErr, true, k + 1)
        else SearchFrom(l, atts, k + 1, GlobalsOf(m), lastErr)
  }

  /** One step of the search after an attempt that threw. */
  lemma SearchAfterFailure(l: Loaders, atts: seq<Attempt>, k: nat, g: Globals, e: Option<string>)
    requires k < |atts| && LoadFails(l, atts[k])
    ensures SearchFrom(l, atts, k, g, e) == SearchFrom(l, atts, k + 1, g, Some(TryLoad(l, atts[k]).message))
  {
  }

  /** One step of the search after an attempt that loaded a module. */
  lemma SearchAfterLoad(l: Loaders, atts: seq<Attempt>, k: nat, g: Globals, e: Option<string>)
    requires k < |atts| && TryLoad(l, atts[k]).Loaded?
    ensures var m := TryLoad(l, atts[k]).namespace;
      SearchFrom(l, atts, k, g, e) ==
        if Usable(m) then Search(GlobalsOf(m), e, true, k + 1)
        else SearchFrom(l, atts, k + 1, GlobalsOf(m), e)
  {
  }

  /** The search stops right after the first usable module, whose exports it installs,
      and every attempt before it failed or gave an unusable module; a search that finds
      none makes every attempt. */
  lemma {:induction false} SearchStopsAtFirstUsable(l: Loaders, atts: seq<Attempt>, k: nat, g: Globals, e: Option<string>)
    requires k <= |atts|
    ensures var s := SearchFrom(l, atts, k, g, e);
      && k <= s.made <= |atts|
      && (s.found ==> k < s.made && LoadsUsable(l, atts[s.made - 1]))
      && (s.found ==> s.globals == GlobalsOf(TryLoad(l, atts[s.made - 1]).namespace))
      && (!s.found ==> s.made == |atts|)
      && (forall j :: k <= j < s.made && (j < s.made - 1 || !s.found) ==> !LoadsUsable(l, atts[j]))
    decreases |atts| - k
  {
    if k < |atts| {
      match TryLoad(l, atts[k])
      case LoadFailed(m) =>
        SearchStopsAtFirstUsable(l, atts, k + 1, g, Some(m));
      case Loaded(m) =>
        if !Usable(m) {
          SearchStopsAtFirstUsable(l, atts, k + 1, GlobalsOf(m), e);
        }
    }
  }

  /** An independent reading of `lastErr`: scanning from the end, the message of the
      latest attempt that threw, or `fallback` if none threw. */
  function LatestFailure(l: Loaders, atts: seq<Attempt>, fallback: Option<string>): Option<string>
    decreases |atts|
  {
    if atts == [] then fallback
    else match TryLoad(l, atts[|atts| - 1])
      case LoadFailed(m) => Some(m)
      case Loaded(_) => LatestFailure(l, atts[..|atts| - 1], fallback)
  }

  lemma {:induction false} LatestFailureCons(l: Loaders, a: Attempt, rest: seq<Attempt>, fallback: Option<string>)
    ensures LatestFailure(l, [a] + rest, fallback) ==
      LatestFailure(l, rest, match TryLoad(l, a) case LoadFailed(m) => Some(m) case Loaded(_) => fallback)
    decreases |rest|
  {
    if rest != [] {
      assert ([a] + rest)[..|rest|] == [a] + rest[..|rest| - 1];
      LatestFailureCons(l, a, rest[..|rest| - 1], fallback);
    } else {
      assert [a] + rest == [a];
      assert [a][..0] == [];
    }
  }

  /** When nothing usable is found, `lastErr` is the message of the latest attempt that
      threw; a module lacking an API never touches it. */
  lemma {:induction false} ExhaustedLastError(l: Loaders, atts: seq<Attempt>, k: nat, g: Globals, e: Option<string>)
    requires k <= |atts|
    ensures var s := SearchFrom(l, atts, k, g, e);
      !s.found ==> s.lastErr == LatestFailure(l, atts[k..], e)
    decreases |atts| - k
  {
    if k < |atts| {
      assert atts[k..] == [atts[k]] + atts[k + 1..];
      LatestFailureCons(l, atts[k], atts[k + 1..], e);
      match TryLoad(l, atts[k])
      case LoadFailed(m) =>
        ExhaustedLastError(l, atts, k + 1, g, Some(m));
      case Loaded(m) =>
        if !Usable(m) {
          ExhaustedLastError(l, atts, k + 1, GlobalsOf(m), e);
        }
    } else {
      assert atts[k..] == [];
    }
  }

  /** What the search decides does not depend on the globals it starts from. */
  lemma {:induction false} SearchIgnoresStartGlobals(l: Loaders, atts: seq<Attempt>, k: nat, g: Globals, h: Globals, e: Option<string>)
    requires k <= |atts|
    ensures var s, t := SearchFrom(l, atts, k, g, e), SearchFrom(l, atts, k, h, e);
      s.found == t.found && s.made == t.made && s.lastErr == t.lastErr
    decreases |atts| - k
  {
    if k < |atts| {
      match TryLoad(l, atts[k])
      case LoadFailed(m) =>
        SearchIgnoresStartGlobals(l, atts, k + 1, g, h, Some(m));
      case Loaded(m) =>
    }
  }

  const ExhaustedPrefix :=
    "No se pudo cargar @xenova/transformers desde CDNs ni proxy. " +
    "Verifica tu conexión/red o inicia el proxy local con \"npm run proxy\" y vuelve a intentar. Último error: "

  /** The aggregated error (app.js:87-91). */
  function ExhaustedMessage(lastErr: Option<string>): string {
    ExhaustedPrefix + match lastErr case Some(m) => m case None => "desconocido"
  }

  /** The whole of `loadTransformers`: its result, the globals it leaves, and how many
      attempts it made. */
  datatype Boot = Boot(result: Outcome, globals: Globals, made: nat)

  function BootstrapSpec(preload: Option<Namespace>, l: Loaders, g0: Globals): Boot {
    BootFrom(preload, l, g0, AllAttempts())
  }

  /** `loadTransformers` over a given list of attempts. */
  function BootFrom(preload: Option<Namespace>, l: Loaders, g0: Globals, atts: seq<Attempt>): Boot {
    if preload.Some? && Usable(preload.value) then Boot(Pass, GlobalsOf(preload.value), 0)
    else
      var g1 := if preload.Some? then GlobalsOf(preload.value) else g0;
      var s := SearchFrom(l, atts, 0, g1, None);
      Boot(if s.found then Pass else Fail(ExhaustedMessage(s.lastErr)), s.globals, s.made)
  }

  /** A usable preloaded module is adopted and no candidate is attempted. */
  lemma PreloadShortCircuits(p: Namespace, l: Loaders, g0: Globals)
    requires Usable(p)
    ensures BootstrapSpec(Some(p), l, g0) == Boot(Pass, GlobalsOf(p), 0)
  {
  }

  /** A preloaded module with only one of the two APIs changes nothing about the search:
      the same attempts are made with the same outcome. */
  lemma PartialPreloadSearchesNormally(p: Namespace, l: Loaders, g0: Globals)
    requires !Usable(p)
    ensures BootstrapSpec(Some(p), l, g0).result == BootstrapSpec(None, l, g0).result
    ensures BootstrapSpec(Some(p), l, g0).made == BootstrapSpec(None, l, g0).made
  {
    SearchIgnoresStartGlobals(l, AllAttempts(), 0, GlobalsOf(p), g0, None);
  }

  /** `loadTransformers` without a usable preload, over any attempt list (the program's
      is `AllAttempts()`, forty long): success means the last attempt made loaded a
      usable module, whose `pipeline` and `env` become the globals, and every earlier one
      did not; failure means every attempt was made and the message ends with the latest
      caught error, or `desconocido` when none was caught. */
  lemma {:induction false} BootstrapOutcome(preload: Option<Namespace>, l: Loaders, g0: Globals, atts: seq<Attempt>)
    requires preload.None? || !Usable(preload.value)
    ensures var b := BootFrom(preload, l, g0, atts);
      && b.made <= |atts|
      && (b.result.Pass? ==> b.made > 0 && LoadsUsable(l, atts[b.made - 1]))
      && (b.result.Pass? ==> b.globals == GlobalsOf(TryLoad(l, atts[b.made - 1]).namespace))
      && (forall j :: 0 <= j < b.made - 1 ==> !LoadsUsable(l, atts[j]))
      && (b.result.Fail? ==>
            && b.made == |atts|
            && (0 < |atts| ==> !LoadsUsable(l, atts[b.made - 1]))
            && b.result.error == ExhaustedMessage(LatestFailure(l, atts, None)))
  {
    var g1 := if preload.Some? then GlobalsOf(preload.value) else g0;
    SearchStopsAtFirstUsable(l, atts, 0, g1, None);
    ExhaustedLastError(l, atts, 0, g1, None);
    assert atts[0..] == atts;
  }

  /** `Math.min(4, Math.max(1, cores - 1))` with `navigator.hardwareConcurrency || 2`
      (app.js:113-114); 0 stands for an absent value. */
  function ThreadCount(hardwareConcurrency: nat): (n: int)
    ensures 1 <= n <= 4
    ensures hardwareConcurrency == 0 ==> n == 1
    ensures hardwareConcurrency == 1 ==> n == 1
    ensures 2 <= hardwareConcurrency <= 5 ==> n == hardwareConcurrency - 1
    ensures hardwareConcurrency >= 5 ==> n == 4
  {
    var cores := if hardwareConcurrency == 0 then 2 else hardwareConcurrency;
    var atLeastOne := if cores - 1 > 1 then cores - 1 else 1;
    if atLeastOne < 4 then atLeastOne else 4
  }

  /** The module globals that `loadTransformers` assigns. */
  class Runtime {
    var pipeline: Option<Capability>
    var env: Option<Capability>

    constructor ()
      ensures pipeline == None && env == None
    {
      pipeline, env := None, None;
    }

    /** `loadTransformers`: returns its outcome and the attempts it made, in order. */
    method LoadTransformers(preload: Option<Namespace>, l: Loaders) returns (r: Outcome, tried: seq<Attempt>)
      modifies this
      ensures var b := BootstrapSpec(preload, l, old(Globals(pipeline, env)));
        && r == b.result
        && Globals(pipeline, env) == b.globals
        && b.made <= |AllAttempts()|
        && tried == AllAttempts()[..b.made]
    {
      tried := [];
      if preload.Some? {
        var m := preload.value;
        pipeline := PipelineOf(m);
        env := EnvOf(m);
        if pipeline.Some? && env.Some? {
          r := Pass;
          return;
        }
      }
      var found, lastErr;
      found, lastErr, tried := TryCandidates(Candidates(), l);
      if found {
        r := Pass;
      } else {
        r := Fail(ExhaustedMessage(lastErr));
      }
    }

    /** One attempt inside the loops: a module is adopted into the globals whether or not
        it is usable, and only a thrown error updates `lastErr`. */
    method TryAttempt(l: Loaders, attempt: Attempt, ghost atts: seq<Attempt>, ghost k: nat, lastErr: Option<string>)
      returns (usable: bool, lastErr': Option<string>)
      requires k < |atts| && atts[k] == attempt
      modifies this
      ensures var before := SearchFrom(l, atts, k, old(Globals(pipeline, env)), lastErr);
        if usable then lastErr' == lastErr && before == Search(Globals(pipeline, env), lastErr, true, k + 1)
        else before == SearchFrom(l, atts, k + 1, Globals(pipeline, env), lastErr')
    {
      var outcome := TryLoad(l, attempt);
      if outcome.LoadFailed? {
        SearchAfterFailure(l, atts, k, Globals(pipeline, env), lastErr);
        usable, lastErr' := false, Some(outcome.message);
      } else {
        SearchAfterLoad(l, atts, k, Globals(pipeline, env), lastErr);
        var m := outcome.namespace;
        pipeline := PipelineOf(m);
        env := EnvOf(m);
        usable, lastErr' := pipeline.Some? && env.Some?, lastErr;
      }
    }

    /** The nested loops of `loadTransformers` over candidates and strategies. */
    method TryCandidates(candidates: seq<string>, l: Loaders)
      returns (found: bool, lastErr: Option<string>, tried: seq<Attempt>)
      modifies this
      ensures var s := SearchFrom(l, Attempts(candidates), 0, old(Globals(pipeline, env)), None);
        && found == s.found
        && lastErr == s.lastErr
        && Globals(pipeline, env) == s.globals
        && tried == Attempts(candidates)[..s.made]
    {
      ghost var atts := Attempts(candidates);
      ghost var goal := SearchFrom(l, atts, 0, Globals(pipeline, env), None);
      tried, lastErr := [], None;
      var i := 0;
      while i < |candidates|
        invariant 0 <= i <= |candidates| && |atts| == 2 * |candidates|
        invariant tried == atts[..2 * i]
        invariant goal == SearchFrom(l, atts, 2 * i, Globals(pipeline, env), lastErr)
      {
        AttemptAt(candidates, i, 0);
        AttemptAt(candidates, i, 1);
        var made;
        found, lastErr, made := TryStrategies(candidates[i], l, lastErr, atts, 2 * i);
        assert atts[..2 * i] + atts[2 * i..2 * i + |made|] == atts[..2 * i + |made|];
        tried := tried + made;
        if found {
          return;
        }
        i := i + 1;
      }
      found := false;
    }

    /** The inner loop: one candidate by direct import, then as a blob, stopping at the
        first usable module; `made` is the attempts it made. */
    method TryStrategies(url: string, l: Loaders, lastErr: Option<string>, ghost atts: seq<Attempt>, ghost k: nat)
      returns (found: bool, lastErr': Option<string>, made: seq<Attempt>)
      requires k + 2 <= |atts| && atts[k] == Attempt(url, Import) && atts[k + 1] == Attempt(url, Blob)
      modifies this
      ensures 1 <= |made| <= 2 && made == atts[k..k + |made|]
      ensures var before := SearchFrom(l, atts, k, old(Globals(pipeline, env)), lastErr);
        if found then before == Search(Globals(pipeline, env), lastErr', true, k + |made|)
        else |made| == 2 && before == SearchFrom(l, atts, k + 2, Globals(pipeline, env), lastErr')
    {
      ghost var goal := SearchFrom(l, atts, k, Globals(pipeline, env), lastErr);
      var loaders := [Import, Blob];
      made, lastErr' := [], lastErr;
      var j := 0;
      while j < |loaders|
        invariant 0 <= j <= |loaders|
        invariant made == atts[k..k + j]
        invariant goal == SearchFrom(l, atts, k + j, Globals(pipeline, env), lastErr')
      {
        var attempt := Attempt(url, loaders[j]);
        assert atts[k + j] == attempt;
        assert atts[k..k + j + 1] == atts[k..k + j] + [attempt];
        made := made + [attempt];
        var usable;
        usable, lastErr' := TryAttempt(l, attempt, atts, k + j, lastErr');
        if usable {
          found := true;
          return;
        }
        j := j + 1;
      }
      found := false;
    }
  }
}
