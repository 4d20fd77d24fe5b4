/**
 * Image generation through the SiliconCloud API: the request body and URL it builds,
 * how a failed HTTP response is turned into an error, and which image URL a successful
 * response yields. The HTTP call is a function from the request to its outcome.
 */
module SiliconCloudImage {
  import opened Wrappers
  import opened Strings

  const Provider: string := "siliconcloud"
  const DefaultBaseUrl: string := "https://api.siliconflow.cn/v1"
  const QwenImageEdit: string := "Qwen/Qwen-Image-Edit"
  const InvalidProviderAPIKey: string := "InvalidProviderAPIKey"
  const ProviderBizError: string := "ProviderBizError"
  const UrlPlaceholder: string := "{{url}}"

  predicate Truthy(s: Option<string>) {
    s.Some? && s.value != ""
  }

  /** The generation parameters the request uses; `None` is null or undefined. */
  datatype ImageParams = ImageParams(prompt: string, size: Option<string>, seed: Option<int>, imageUrls: Option<seq<string>>)

  /** The caller's options and the two environment variables the request reads. */
  datatype Options = Options(apiKey: Option<string>, baseUrl: Option<string>, user: Option<string>, ip: Option<string>)

  datatype Env = Env(baseUrl: Option<string>, proxyUrl: Option<string>)

  datatype RequestBody = RequestBody(model: string, n: int, prompt: string, size: Option<string>,
                                     seed: Option<int>, image: Option<string>)

  datatype Headers = Headers(authorization: string, contentType: string, userId: string, userIp: string)

  datatype Request = Request(url: string, body: RequestBody, headers: Headers)

  /** The body of a failed response, when it parses: `error.message` and `message`. */
  datatype ErrorData = ErrorData(errorMessage: Option<string>, message: Option<string>)

  datatype ImageItem = ImageItem(url: string)

  datatype SuccessData = SuccessData(data: Option<seq<ImageItem>>, images: Option<seq<ImageItem>>)

  /** A response: its status, status text, and the outcome of reading its JSON body. */
  datatype HttpResponse = HttpResponse(ok: bool, status: nat, statusText: string,
                                       errorJson: Option<ErrorData>, successJson: Option<SuccessData>)

  /** What an error carries: a message, an error raised inside the request block, or a thrown failure. */
  datatype ErrorBody = Message(message: string) | Raised(inner: RuntimeError) | Thrown(description: string)

  /** `AgentRuntimeError.createImage({error, errorType, provider})`. */
  datatype RuntimeError = RuntimeError(error: ErrorBody, errorType: string, provider: string)

  // ---------------------------------------------------------------- request

  /** The body the request sends (its `JSON.stringify` serialisation is not modelled). */
  function RequestBodyOf(model: string, params: ImageParams): RequestBody {
    RequestBody(
      model, 1, params.prompt,
      if Truthy(params.size) then params.size else None,
      params.seed,
      if model == QwenImageEdit && params.imageUrls.Some? && |params.imageUrls.value| > 0
      then Some(params.imageUrls.value[0]) else None)
  }

  /** Builds the body by conditional field assignment, as the service does. */
  method BuildRequestBody(model: string, params: ImageParams) returns (body: RequestBody)
    ensures body == RequestBodyOf(model, params)
  {
    body := RequestBody(model, 1, params.prompt, None, None, None);
    if Truthy(params.size) {
      body := body.(size := params.size);
    }
    if params.seed.Some? {
      body := body.(seed := params.seed);
    }
    if model == QwenImageEdit && params.imageUrls.Some? && |params.imageUrls.value| > 0 {
      body := body.(image := Some(params.imageUrls.value[0]));
    }
  }

  /**
   * The body is `{model, n: 1, prompt}`; `size` is added only when non-empty; `seed` whenever
   * it is defined, 0 included; `image` is the first reference image, for the Qwen edit model only.
   */
  lemma RequestBodyContract(model: string, params: ImageParams)
    ensures var b := RequestBodyOf(model, params);
      b.model == model && b.n == 1 && b.prompt == params.prompt
      && (b.size.Some? <==> Truthy(params.size)) && (b.size.Some? ==> b.size == params.size)
      && b.seed == params.seed
      && (params.seed == Some(0) ==> b.seed == Some(0))
      && (b.image.Some? <==> model == QwenImageEdit && params.imageUrls.Some? && |params.imageUrls.value| > 0)
      && (b.image.Some? ==> b.image.value == params.imageUrls.value[0])
  {
  }

  /** `baseURL = env || default` applies only when the option is undefined. */
  function BaseUrl(opts: Options, env: Env): string {
    if opts.baseUrl.Some? then opts.baseUrl.value
    else if Truthy(env.baseUrl) then env.baseUrl.value
    else DefaultBaseUrl
  }

  function Endpoint(baseUrl: string): string {
    baseUrl + "/images/generations"
  }

  /** With a proxy, the proxy string with its first `{{url}}` replaced by the endpoint. */
  function FinalUrl(proxyUrl: Option<string>, endpoint: string): string {
    if Truthy(proxyUrl) then ReplaceFirst(proxyUrl.value, UrlPlaceholder, endpoint) else endpoint
  }

  /**
   * Without a proxy the request goes to the endpoint; through a proxy whose string holds the
   * placeholder, the endpoint takes the placeholder's place (for an endpoint without `$`).
   */
  lemma FinalUrlContract(proxyUrl: Option<string>, baseUrl: string)
    ensures !Truthy(proxyUrl) ==> FinalUrl(proxyUrl, Endpoint(baseUrl)) == baseUrl + "/images/generations"
    ensures Truthy(proxyUrl) && Contains(proxyUrl.value, UrlPlaceholder)
            && (forall i :: 0 <= i < |Endpoint(baseUrl)| ==> Endpoint(baseUrl)[i] != '$') ==>
              var p := proxyUrl.value; var k := IndexOf(p, UrlPlaceholder).value;
              FinalUrl(proxyUrl, Endpoint(baseUrl)) == p[..k] + Endpoint(baseUrl) + p[k + 7..]
    ensures Truthy(proxyUrl) && !Contains(proxyUrl.value, UrlPlaceholder) ==> FinalUrl(proxyUrl, Endpoint(baseUrl)) == proxyUrl.value
  {
    if Truthy(proxyUrl) && Contains(proxyUrl.value, UrlPlaceholder)
       && (forall i :: 0 <= i < |Endpoint(baseUrl)| ==> Endpoint(baseUrl)[i] != '$') {
      ReplaceFirstLiteral(proxyUrl.value, UrlPlaceholder, Endpoint(baseUrl));
    }
  }

  function OrUnknown(s: Option<string>): string {
    if Truthy(s) then s.value else "unknown"
  }

  function RequestOf(model: string, params: ImageParams, apiKey: string, opts: Options, env: Env): Request {
    Request(FinalUrl(env.proxyUrl, Endpoint(BaseUrl(opts, env))), RequestBodyOf(model, params),
            Headers("Bearer " + apiKey, "application/json", OrUnknown(opts.user), OrUnknown(opts.ip)))
  }

  /** The user-tracking headers carry the user and IP when given, and `unknown` otherwise. */
  lemma TrackingHeaders(model: string, params: ImageParams, apiKey: string, opts: Options, env: Env)
    ensures var h := RequestOf(model, params, apiKey, opts, env).headers;
      (Truthy(opts.user) ==> h.userId == opts.user.value) && (!Truthy(opts.user) ==> h.userId == "unknown")
      && (Truthy(opts.ip) ==> h.userIp == opts.ip.value) && (!Truthy(opts.ip) ==> h.userIp == "unknown")
  {
  }

  // ---------------------------------------------------------------- response

  /** The message of a failed response: its body's messages, else the status text, else `HTTP <status>`. */
  function ErrorMessageOf(resp: HttpResponse): string {
    var fallback := "HTTP " + NatToString(resp.status);
    match resp.errorJson
    case Some(d) =>
      if Truthy(d.errorMessage) then d.errorMessage.value
      else if Truthy(d.message) then d.message.value
      else fallback
    case None => if resp.statusText != "" then resp.statusText else fallback
  }

  /** The error raised inside the request block for a failed response. */
  function HttpError(resp: HttpResponse): RuntimeError {
    if resp.status == 401 then RuntimeError(Message("Invalid API key for SiliconCloud"), InvalidProviderAPIKey, Provider)
    else if resp.status == 403 then
      RuntimeError(Message("请检查 API Key 余额是否充足，或者是否在用未实名的 API Key 访问需要实名的模型。"), ProviderBizError, Provider)
    else RuntimeError(Message("SiliconCloud API error: " + ErrorMessageOf(resp)), ProviderBizError, Provider)
  }

  /** `data.data || data.images || []`: an empty but present `data` list is kept. */
  function ImagesOf(d: SuccessData): seq<ImageItem> {
    if d.data.Some? then d.data.value else if d.images.Some? then d.images.value else []
  }

  /** The outer catch re-wraps every error of the request block as a business error. */
  function Wrap(e: ErrorBody): RuntimeError {
    RuntimeError(e, ProviderBizError, Provider)
  }

  /** The outcome of the request block, before the outer catch. */
  function RequestOutcome(outcome: Result<HttpResponse, string>): Result<string, ErrorBody> {
    match outcome
    case Err(e) => Err(Thrown(e))
    case Ok(resp) =>
      if !resp.ok then Err(Raised(HttpError(resp)))
      else match resp.successJson
        case None => Err(Thrown("invalid JSON body"))
        case Some(d) =>
          var images := ImagesOf(d);
          if |images| == 0 then Err(Raised(RuntimeError(Message("No images returned from SiliconCloud API"), ProviderBizError, Provider)))
          else Ok(images[0].url)
  }

  function CreateImageSpec(model: string, params: ImageParams, opts: Options, env: Env,
                           fetch: Request -> Result<HttpResponse, string>): Result<string, RuntimeError>
  {
    if !Truthy(opts.apiKey) then
      Err(RuntimeError(Message("API key is required for SiliconCloud"), InvalidProviderAPIKey, Provider))
    else
      match RequestOutcome(fetch(RequestOf(model, params, opts.apiKey.value, opts, env)))
      case Ok(u) => Ok(u)
      case Err(e) => Err(Wrap(e))
  }

  /** `createImage`, with the error message reassigned step by step as the service does. */
  method CreateImage(model: string, params: ImageParams, opts: Options, env: Env,
                     fetch: Request -> Result<HttpResponse, string>) returns (r: Result<string, RuntimeError>)
    ensures r == CreateImageSpec(model, params, opts, env, fetch)
  {
    if !Truthy(opts.apiKey) {
      return Err(RuntimeError(Message("API key is required for SiliconCloud"), InvalidProviderAPIKey, Provider));
    }
    var endpoint := Endpoint(BaseUrl(opts, env));
    var body := BuildRequestBody(model, params);
    var headers := Headers("Bearer " + opts.apiKey.value, "application/json", OrUnknown(opts.user), OrUnknown(opts.ip));
    var finalUrl := FinalUrl(env.proxyUrl, endpoint);
    var outcome := fetch(Request(finalUrl, body, headers));
    if outcome.Err? {
      return Err(Wrap(Thrown(outcome.error)));
    }
    var response := outcome.value;
    if !response.ok {
      var errorMessage := "HTTP " + NatToString(response.status);
      if response.errorJson.Some? {
        var errorData := response.errorJson.value;
        if Truthy(errorData.errorMessage) {
          errorMessage := errorData.errorMessage.value;
        } else if Truthy(errorData.message) {
          errorMessage := errorData.message.value;
        }
      } else if response.statusText != "" {
        errorMessage := response.statusText;
      }
      assert errorMessage == ErrorMessageOf(response);
      return Err(Wrap(Raised(HttpError(response))));
    }
    if response.successJson.None? {
      return Err(Wrap(Thrown("invalid JSON body")));
    }
    var images := ImagesOf(response.successJson.value);
    if |images| == 0 {
      return Err(Wrap(Raised(RuntimeError(Message("No images returned from SiliconCloud API"), ProviderBizError, Provider))));
    }
    r := Ok(images[0].url);
  }

  /** A missing API key fails with InvalidProviderAPIKey whatever the network would answer: no request is made. */
  lemma MissingKeyBeforeRequest(model: string, params: ImageParams, opts: Options, env: Env,
                                fetch1: Request -> Result<HttpResponse, string>, fetch2: Request -> Result<HttpResponse, string>)
    requires !Truthy(opts.apiKey)
    ensures CreateImageSpec(model, params, opts, env, fetch1) == CreateImageSpec(model, params, opts, env, fetch2)
    ensures CreateImageSpec(model, params, opts, env, fetch1).Err?
    ensures CreateImageSpec(model, params, opts, env, fetch1).error.errorType == InvalidProviderAPIKey
  {
  }

  /**
   * Once a request is made, every failure reaches the caller as a ProviderBizError of
   * SiliconCloud; the 401 and 403 classifications survive only inside it.
   */
  lemma EveryRequestErrorIsBiz(model: string, params: ImageParams, opts: Options, env: Env,
                               fetch: Request -> Result<HttpResponse, string>)
    requires Truthy(opts.apiKey)
    ensures var r := CreateImageSpec(model, params, opts, env, fetch);
      r.Err? ==> r.error.errorType == ProviderBizError && r.error.provider == Provider
    ensures var resp := fetch(RequestOf(model, params, opts.apiKey.value, opts, env));
      resp.Ok? && !resp.value.ok && resp.value.status == 401 ==>
        CreateImageSpec(model, params, opts, env, fetch).Err?
        && CreateImageSpec(model, params, opts, env, fetch).error
             == Wrap(Raised(RuntimeError(Message("Invalid API key for SiliconCloud"), InvalidProviderAPIKey, Provider)))
  {
  }

  /**
   * A successful response yields the first image of `data`, or of `images` when `data` is
   * absent; an empty `data` list is not replaced by `images` and gives the "No images" error.
   */
  lemma ImageSelection(d: SuccessData)
    ensures var r := RequestOutcome(Ok(HttpResponse(true, 200, "", None, Some(d))));
      (d.data.Some? && |d.data.value| > 0 ==> r == Ok(d.data.value[0].url))
      && (d.data.None? && d.images.Some? && |d.images.value| > 0 ==> r == Ok(d.images.value[0].url))
      && (d.data == Some([]) ==> r.Err?)
      && (d.data.None? && d.images.None? ==> r.Err?)
  {
  }

  /** A failed response's message comes from its body, else the status text, else the status code. */
  lemma ErrorMessageContract(resp: HttpResponse)
    ensures resp.errorJson.Some? && Truthy(resp.errorJson.value.errorMessage) ==>
              ErrorMessageOf(resp) == resp.errorJson.value.errorMessage.value
    ensures resp.errorJson.Some? && !Truthy(resp.errorJson.value.errorMessage) && Truthy(resp.errorJson.value.message) ==>
              ErrorMessageOf(resp) == resp.errorJson.value.message.value
    ensures resp.errorJson.None? && resp.statusText != "" ==> ErrorMessageOf(resp) == resp.statusText
    ensures resp.errorJson.None? && resp.statusText == "" ==> ErrorMessageOf(resp) == "HTTP " + NatToString(resp.status)
    ensures ErrorMessageOf(resp) != ""
  {
  }
}
