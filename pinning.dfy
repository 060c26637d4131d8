/**
 * What the two pinning routes share: the Pinata credentials and the request headers
 * chosen from them, the shape of the outgoing pin request, the given outcome of the
 * `fetch` to Pinata, and the replies the routes send back with `NextResponse.json`.
 */
module Pinning {
  import opened Base
  import opened Json

  const PinEndpoint := "https://api.pinata.cloud/pinning/pinJSONToIPFS"
  const IpfsScheme := "ipfs://"
  const GatewayPrefix := "https://gateway.pinata.cloud/ipfs/"
  const JsonContentType := "application/json"

  /** `PINATA_JWT`, `PINATA_API_KEY` and `PINATA_SECRET_API_KEY` from the environment. */
  datatype PinataEnv = PinataEnv(jwt: Option<string>, apiKey: Option<string>, secret: Option<string>)

  /** An environment variable that is set to a non-empty (truthy) string. */
  predicate IsSet(v: Option<string>) { v.Some? && v.value != "" }

  predicate HasCredentials(env: PinataEnv)
  {
    IsSet(env.jwt) || (IsSet(env.apiKey) && IsSet(env.secret))
  }

  /**
   * The headers a credentialed request carries: always the JSON content type; with a JWT
   * the bearer header alone, otherwise the key and secret pair alone.
   */
  predicate CredentialHeaders(env: PinataEnv, h: map<string, string>)
  {
    && "Content-Type" in h && h["Content-Type"] == JsonContentType
    && if IsSet(env.jwt) then
         && h.Keys == {"Content-Type", "Authorization"}
         && h["Authorization"] == "Bearer " + env.jwt.value
       else
         && IsSet(env.apiKey) && IsSet(env.secret)
         && h.Keys == {"Content-Type", "pinata_api_key", "pinata_secret_api_key"}
         && h["pinata_api_key"] == env.apiKey.value
         && h["pinata_secret_api_key"] == env.secret.value
  }

  /** The headers are fully determined by the credentials. */
  lemma CredentialHeadersUnique(env: PinataEnv, h1: map<string, string>, h2: map<string, string>)
    requires CredentialHeaders(env, h1) && CredentialHeaders(env, h2)
    ensures h1 == h2
  {
  }

  /**
   * The headers dictionary of both routes, built by updating it in place: `None` is the
   * early return for missing credentials. A JWT takes precedence over a key and secret.
   */
  method SelectHeaders(env: PinataEnv) returns (headers: Option<map<string, string>>)
    ensures headers.Some? <==> HasCredentials(env)
    ensures headers.Some? ==> CredentialHeaders(env, headers.value)
    ensures headers.Some? ==> ("Authorization" in headers.value <==> IsSet(env.jwt))
    ensures headers.Some? ==> ("pinata_api_key" in headers.value <==> !IsSet(env.jwt))
  {
    var h := map["Content-Type" := JsonContentType];
    if IsSet(env.jwt) {
      h := h["Authorization" := "Bearer " + env.jwt.value];
    } else if IsSet(env.apiKey) && IsSet(env.secret) {
      h := h["pinata_api_key" := env.apiKey.value];
      h := h["pinata_secret_api_key" := env.secret.value];
    } else {
      return None;
    }
    return Some(h);
  }

  /** Both routes require a truthy `name` and a truthy `image` in the body. */
  predicate ValidBody(metadata: Json)
  {
    Present(Field(metadata, "name")) && Present(Field(metadata, "image"))
  }

  datatype PinRequest = PinRequest(url: string, headers: map<string, string>, payload: Json)

  /**
   * The given outcome of the `fetch` to Pinata: it threw, or it answered with a status
   * flag `ok`, the raw body `text` and what `JSON.parse(text)` gives (`None` when it throws).
   */
  datatype FetchOutcome =
    | FetchThrew(message: string)
    | Fetched(ok: bool, text: string, parsed: Option<Json>)

  datatype ReplyBody =
    | ErrorBody(error: string)
    | RawErrorBody(error: string, raw: string)
    | DetailErrorBody(error: string, detail: Json)
    | PinnedBody(ipfs: string, gateway: string, hash: Json)

  datatype Reply = Reply(status: int, body: ReplyBody)

  /** The outer `catch`: the thrown message, or the fixed fallback when it is empty. */
  function ThrownReply(message: string): (r: Reply)
    ensures r.status == 500 && r.body.ErrorBody? && r.body.error != ""
    ensures r.body.error == (if message != "" then message else "Unexpected upload error")
  {
    Reply(500, ErrorBody(if message != "" then message else "Unexpected upload error"))
  }

  /** The success reply for a returned `IpfsHash`. */
  function PinnedReply(hash: Json): Reply
  {
    Reply(200, PinnedBody(IpfsScheme + ToText(hash), GatewayPrefix + ToText(hash), hash))
  }

  /** The JSON object a reply carries. */
  function ReplyJson(r: Reply): Json
  {
    match r.body
    case ErrorBody(e) => JObj(map["error" := JStr(e)])
    case RawErrorBody(e, raw) => JObj(map["error" := JStr(e), "raw" := JStr(raw)])
    case DetailErrorBody(e, d) => JObj(map["error" := JStr(e), "detail" := d])
    case PinnedBody(ipfs, gateway, hash) =>
      JObj(map["success" := JBool(true), "ipfs" := JStr(ipfs), "gateway" := JStr(gateway), "hash" := hash])
  }

  /** The replies the routes send: a success reply is always built by `PinnedReply`. */
  predicate RouteReply(r: Reply)
  {
    r.body.PinnedBody? ==> r == PinnedReply(r.body.hash)
  }

  /** A route's reply carries a truthy `ipfs` field exactly when it is the success reply. */
  lemma IpfsFieldMeansPinned(r: Reply)
    requires RouteReply(r)
    ensures Present(Field(ReplyJson(r), "ipfs")) <==> r.body.PinnedBody?
  {
  }

  /** The `ipfs://` URI and the gateway URL name the same hash. */
  lemma PinnedUrlsAgree(hash: Json)
    ensures var b := PinnedReply(hash).body;
      && b.ipfs[..|IpfsScheme|] == IpfsScheme
      && b.gateway[..|GatewayPrefix|] == GatewayPrefix
      && b.ipfs[|IpfsScheme|..] == b.gateway[|GatewayPrefix|..] == ToText(hash)
  {
  }
}
