/**
 * `POST /api/checkEligible`: despite its name, the same pinning pipeline as the upload
 * route, with its own error messages and with no fallback for the pinned name.
 */
module CheckEligibleRoute {
  import opened Base
  import opened Json
  import opened Pinning

  /** `pinataMetadata.name` is `metadata.name` itself. */
  function Payload(metadata: Json): Json
    requires Field(metadata, "name").Some?
  {
    JObj(map[
      "pinataMetadata" := JObj(map["name" := Field(metadata, "name").value]),
      "pinataContent" := metadata
    ])
  }

  method Post(request: Decoded, env: PinataEnv, response: FetchOutcome) returns (reply: Reply, sent: Option<PinRequest>)
    ensures request.Threw? ==> reply == ThrownReply(request.message) && sent.None?
    ensures request.Decoded? && !ValidBody(request.value) ==>
      reply == Reply(400, ErrorBody("Missing name or image")) && sent.None?
    ensures request.Decoded? && ValidBody(request.value) && !HasCredentials(env) ==>
      reply == Reply(500, ErrorBody("Missing Pinata credentials (JWT or API Key)")) && sent.None?
    ensures sent.Some? <==> request.Decoded? && ValidBody(request.value) && HasCredentials(env)
    ensures sent.Some? ==>
      && sent.value.url == PinEndpoint
      && CredentialHeaders(env, sent.value.headers)
      && sent.value.payload == Payload(request.value)
      && sent.value.payload.fields["pinataContent"] == request.value
    ensures sent.Some? && response.FetchThrew? ==> reply == ThrownReply(response.message)
    ensures sent.Some? && response.Fetched? && response.parsed.None? ==>
      reply == Reply(500, RawErrorBody("Pinata returned non-JSON", response.text))
    ensures sent.Some? && response.Fetched? && response.parsed.Some? &&
            (!response.ok || !Present(Field(response.parsed.value, "IpfsHash"))) ==>
      reply == Reply(500, DetailErrorBody("Pinata upload failed", response.parsed.value))
    ensures reply.status == 200 <==>
      && sent.Some? && response.Fetched? && response.ok && response.parsed.Some?
      && Present(Field(response.parsed.value, "IpfsHash"))
    ensures reply.status == 200 ==> reply == PinnedReply(response.parsed.value.fields["IpfsHash"])
    ensures reply.status != 200 ==> reply.status in {400, 500} && !reply.body.PinnedBody?
    ensures RouteReply(reply)
  {
    sent := None;
    if request.Threw? {
      return ThrownReply(request.message), sent;
    }
    var metadata := request.value;
    if !Present(Field(metadata, "name")) || !Present(Field(metadata, "image")) {
      return Reply(400, ErrorBody("Missing name or image")), sent;
    }
    var headers := SelectHeaders(env);
    if headers.None? {
      return Reply(500, ErrorBody("Missing Pinata credentials (JWT or API Key)")), sent;
    }
    sent := Some(PinRequest(PinEndpoint, headers.value, Payload(metadata)));
    match response {
      case FetchThrew(message) =>
        reply := ThrownReply(message);
      case Fetched(ok, text, parsed) =>
        if parsed.None? {
          return Reply(500, RawErrorBody("Pinata returned non-JSON", text)), sent;
        }
        var data := parsed.value;
        if !ok || !Present(Field(data, "IpfsHash")) {
          return Reply(500, DetailErrorBody("Pinata upload failed", data)), sent;
        }
        reply := PinnedReply(Field(data, "IpfsHash").value);
    }
  }

  /** The `{token}` body that `checkEligibility` in lib/api.ts sends is always refused with 400. */
  lemma TokenBodyRejected(token: string)
    ensures !ValidBody(JObj(map["token" := JStr(token)]))
  {
  }
}
