/**
 * The server-side image endpoint (api/image/index.js): it checks its
 * configuration, picks the generation or the edit endpoint of the image
 * model, builds the request payload and forwards it with up to three
 * attempts, one second apart.
 *
 * The upstream service is a function from the attempt number to what that
 * attempt met; the requests made and the pauses taken are returned so that
 * the contract can speak about them. `JSON.stringify` of an upstream body is
 * a function parameter.
 */
module ImageProxy {
  import opened Js
  import opened Json
  import opened Types

  const MaxRetries: nat := 3
  const MisconfigurationMessage := "Server misconfiguration: Missing Image API keys."

  datatype Config = Config(fluxKey: Option<string>, genEndpoint: Option<string>, editEndpoint: Option<string>)

  /** The request body's `mode`, `prompt` and `image`. */
  datatype Request = Request(mode: Option<string>, prompt: Value, image: Option<string>)

  /** The payload sent upstream; `image` is `None` when the payload has no
      image property, or it was set to `undefined`. */
  datatype Payload = Payload(
    prompt: Value, width: int, height: int, steps: int, responseFormat: string,
    image: Option<string>, strength: real)

  /** One `fetch(endpoint, { method: 'POST', headers: {'api-key': key}, body })`. */
  datatype Fetch = Fetch(endpoint: string, apiKey: string, payload: Payload)

  /** What an attempt met: a response whose body is JSON, a response whose
      body is not JSON (`response.json()` throws), or a failed fetch. */
  datatype Upstream =
    | Response(status: int, data: Json)
    | BodyNotJson(message: string)
    | NetworkError(message: string)

  datatype Body = JsonBody(json: Json) | TextBody(text: string)

  /** `context.res`; a response without a status is a 200. */
  datatype HttpResult = HttpResult(status: int, body: Body)

  // ---------------------------------------------------------------------------
  // Endpoint and payload
  // ---------------------------------------------------------------------------

  predicate Configured(cfg: Config) {
    Present(cfg.fluxKey) && Present(cfg.genEndpoint) && Present(cfg.editEndpoint)
  }

  predicate IsEdit(req: Request) {
    req.mode == Some("edit") && Present(req.image)
  }

  /** A data URL loses everything up to its first comma (`split(',')[1]`,
      `undefined` when there is no comma); any other image is sent as given. */
  function CleanImage(image: string): (r: Option<string>)
    ensures !StartsWith(image, "data:image") ==> r == Some(image)
  {
    if StartsWith(image, "data:image") then
      var pieces := Split(image, ',');
      if |pieces| > 1 then Some(pieces[1]) else None
    else Some(image)
  }

  /** For a data URL `header,data` with no further comma, exactly `data` is sent. */
  lemma CleanDataUrl(header: string, data: string)
    requires StartsWith(header, "data:image") && ',' !in header && ',' !in data
    ensures CleanImage(header + "," + data) == Some(data)
  {
    var image := header + "," + data;
    assert image == header + [','] + data;
    assert StartsWith(image, "data:image");
    SplitAtFirst(header, data, ',');
    SplitWithoutSeparator(data, ',');
  }

  /** A data URL without a comma is sent with no image at all. */
  lemma CleanDataUrlWithoutComma(image: string)
    requires StartsWith(image, "data:image") && ',' !in image
    ensures CleanImage(image).None?
  {
    SplitWithoutSeparator(image, ',');
  }

  /** 1024 by 1024, 25 steps, base64 output; an edit carries the cleaned
      image and strength 0.75, a generation strength 1.0 and no image. */
  function BuildPayload(req: Request): (p: Payload)
    ensures p.prompt == req.prompt && p.width == 1024 && p.height == 1024
    ensures p.steps == 25 && p.responseFormat == "b64_json"
    ensures IsEdit(req) ==> p.strength == 0.75 && p.image == CleanImage(req.image.value)
    ensures !IsEdit(req) ==> p.strength == 1.0 && p.image.None?
  {
    if IsEdit(req) then Payload(req.prompt, 1024, 1024, 25, "b64_json", CleanImage(req.image.value), 0.75)
    else Payload(req.prompt, 1024, 1024, 25, "b64_json", None, 1.0)
  }

  function Endpoint(cfg: Config, req: Request): (e: string)
    requires Configured(cfg)
    ensures IsEdit(req) ==> e == cfg.editEndpoint.value
    ensures !IsEdit(req) ==> e == cfg.genEndpoint.value
  {
    if IsEdit(req) then cfg.editEndpoint.value else cfg.genEndpoint.value
  }

  // ---------------------------------------------------------------------------
  // Retry policy: the specification
  // ---------------------------------------------------------------------------

  /** A client error other than 429 Too Many Requests: not worth retrying. */
  predicate IsFinalClientError(status: int) {
    400 <= status < 500 && status != 429
  }

  /** An attempt that ends the handler: success, or a final client error. */
  predicate Ends(u: Upstream) {
    u.Response? && (IsOk(u.status) || IsFinalClientError(u.status))
  }

  /** The answer of an attempt that ends the handler. */
  function Reply(u: Upstream): HttpResult
    requires Ends(u)
  {
    if IsOk(u.status) then HttpResult(200, JsonBody(u.data)) else HttpResult(u.status, JsonBody(u.data))
  }

  /** The `message` of the error an attempt threw. */
  function AttemptError(u: Upstream, stringify: Json -> string): string
    requires !Ends(u)
  {
    match u
    case Response(status, data) => "API Error: " + IntToString(status) + " - " + stringify(data)
    case BodyNotJson(message) => message
    case NetworkError(message) => message
  }

  /** The first of attempts `from`..MaxRetries that ends the handler. */
  function FirstEnding(upstream: nat -> Upstream, from: nat): (r: Option<nat>)
    requires from >= 1
    ensures r.Some? ==> from <= r.value <= MaxRetries && Ends(upstream(r.value))
    ensures r.Some? ==> forall a | from <= a < r.value :: !Ends(upstream(a))
    ensures r.None? ==> forall a | from <= a <= MaxRetries :: !Ends(upstream(a))
    decreases MaxRetries + 1 - from
  {
    if from > MaxRetries then None
    else if Ends(upstream(from)) then Some(from)
    else FirstEnding(upstream, from + 1)
  }

  function GiveUpMessage(lastError: string): string {
    "Failed after " + NatToString(MaxRetries) + " attempts. Last error: " + lastError
  }

  // ---------------------------------------------------------------------------
  // The handler
  // ---------------------------------------------------------------------------

  /** The exported handler. Misconfigured, it answers 500 without calling out.
      Otherwise it makes one request per attempt until an attempt succeeds or
      meets a final client error, whose answer it passes on, or until three
      attempts have failed; it pauses between attempts, never after the last. */
  method Handle(cfg: Config, req: Request, upstream: nat -> Upstream, stringify: Json -> string)
    returns (res: HttpResult, fetches: seq<Fetch>, pauses: nat)
    ensures !Configured(cfg) ==>
      res == HttpResult(500, TextBody(MisconfigurationMessage)) && fetches == [] && pauses == 0
    ensures Configured(cfg) ==>
      var attempts := if FirstEnding(upstream, 1).Some? then FirstEnding(upstream, 1).value else MaxRetries;
      && |fetches| == attempts
      && (forall i | 0 <= i < |fetches| :: fetches[i] == Fetch(Endpoint(cfg, req), cfg.fluxKey.value, BuildPayload(req)))
      && pauses == attempts - 1
      && (FirstEnding(upstream, 1).Some? ==> res == Reply(upstream(attempts)))
      && (FirstEnding(upstream, 1).None? ==>
            res == HttpResult(500, TextBody(GiveUpMessage(AttemptError(upstream(MaxRetries), stringify)))))
  {
    fetches, pauses := [], 0;
    if !Present(cfg.fluxKey) || !Present(cfg.genEndpoint) || !Present(cfg.editEndpoint) {
      res := HttpResult(500, TextBody(MisconfigurationMessage));
      return;
    }
    var request := Prepare(cfg, req);
    var lastError := "";
    var attempt := 1;
    while attempt <= MaxRetries
      invariant 1 <= attempt <= MaxRetries + 1
      invariant |fetches| == attempt - 1 && pauses == attempt - 1 - (if attempt > MaxRetries then 1 else 0)
      invariant forall i | 0 <= i < |fetches| :: fetches[i] == request
      invariant forall a | 1 <= a < attempt :: !Ends(upstream(a))
      invariant attempt > 1 ==> lastError == AttemptError(upstream(attempt - 1), stringify)
      decreases MaxRetries + 1 - attempt
    {
      fetches := fetches + [request];
      var outcome := upstream(attempt);
      if outcome.Response? && IsOk(outcome.status) {
        res := HttpResult(200, JsonBody(outcome.data));
        assert FirstEnding(upstream, 1) == Some(attempt) by { FirstEndingIs(upstream, 1, attempt); }
        return;
      }
      if outcome.Response? && outcome.status >= 400 && outcome.status < 500 && outcome.status != 429 {
        res := HttpResult(outcome.status, JsonBody(outcome.data));
        assert FirstEnding(upstream, 1) == Some(attempt) by { FirstEndingIs(upstream, 1, attempt); }
        return;
      }
      lastError := AttemptError(outcome, stringify);
      if attempt < MaxRetries {
        pauses := pauses + 1;
      }
      attempt := attempt + 1;
    }
    NoEnding(upstream);
    res := HttpResult(500, TextBody(GiveUpMessage(lastError)));
  }

  /** The request every attempt sends: the edit endpoint and a payload with
      the cleaned image in edit mode, the generation endpoint otherwise. */
  method Prepare(cfg: Config, req: Request) returns (request: Fetch)
    requires Configured(cfg)
    ensures request == Fetch(Endpoint(cfg, req), cfg.fluxKey.value, BuildPayload(req))
  {
    var endpoint := cfg.genEndpoint.value;
    var payload := Payload(req.prompt, 1024, 1024, 25, "b64_json", None, 0.0);
    if req.mode == Some("edit") && Present(req.image) {
      endpoint := cfg.editEndpoint.value;
      var cleanImage := CleanImage(req.image.value);
      payload := payload.(image := cleanImage, strength := 0.75);
    } else {
      payload := payload.(strength := 1.0);
    }
    request := Fetch(endpoint, cfg.fluxKey.value, payload);
  }

  lemma {:induction false} FirstEndingIs(upstream: nat -> Upstream, from: nat, a: nat)
    requires 1 <= from <= a <= MaxRetries && Ends(upstream(a))
    requires forall b | from <= b < a :: !Ends(upstream(b))
    ensures FirstEnding(upstream, from) == Some(a)
    decreases a - from
  {
    if from < a {
      FirstEndingIs(upstream, from + 1, a);
    }
  }

  lemma NoEnding(upstream: nat -> Upstream)
    requires forall a | 1 <= a <= MaxRetries :: !Ends(upstream(a))
    ensures FirstEnding(upstream, 1).None?
  {
  }

  /** A request that succeeds at once is made exactly once, without a pause. */
  lemma FirstAttemptSucceeds(upstream: nat -> Upstream)
    requires upstream(1).Response? && IsOk(upstream(1).status)
    ensures FirstEnding(upstream, 1) == Some(1)
  {
  }

  /** A rate limit is retried: a 429 never ends the handler. */
  lemma RateLimitIsRetried(u: Upstream)
    requires u.Response? && u.status == 429
    ensures !Ends(u)
  {
  }
}
