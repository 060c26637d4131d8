/** `POST /api/upload`: validate the metadata, authenticate, pin it on Pinata, report the URLs. */
module UploadRoute {
  import opened Base
  import opened Json
  import opened Pinning

  const FallbackName := "Wardrips Metadata"

  /** `pinataMetadata.name` is `metadata.name || 'Wardrips Metadata'`; the content is the body unchanged. */
  function Payload(metadata: Json): Json
  {
    var name := Field(metadata, "name");
    JObj(map[
      "pinataMetadata" := JObj(map["name" := if Present(name) then name.value else JStr(FallbackName)]),
      "pinataContent" := metadata
    ])
  }

  /**
   * The handler: `request` is what `req.json()` gave, `env` the credentials and `response`
   * the outcome of the `fetch`, which matters only when a request is `sent`.
   */
  method Post(request: Decoded, env: PinataEnv, response: FetchOutcome) returns (reply: Reply, sent: Option<PinRequest>)
    // a body that cannot be read falls to the outer catch
    ensures request.Threw? ==> reply == ThrownReply(request.message) && sent.None?
    // body validation comes first: no credential lookup and no upload
    ensures request.Decoded? && !ValidBody(request.value) ==>
      reply == Reply(400, ErrorBody("Missing name or image")) && sent.None?
    ensures request.Decoded? && ValidBody(request.value) && !HasCredentials(env) ==>
      reply == Reply(500, ErrorBody("Missing Pinata credentials")) && sent.None?
    // a request goes out exactly when the body is valid and credentials are configured
    ensures sent.Some? <==> request.Decoded? && ValidBody(request.value) && HasCredentials(env)
    ensures sent.Some? ==>
      && sent.value.url == PinEndpoint
      && CredentialHeaders(env, sent.value.headers)
      && sent.value.payload == Payload(request.value)
      // the name fallback never fires: the validated name is sent as it is
      && sent.value.payload.fields["pinataMetadata"] == JObj(map["name" := request.value.fields["name"]])
      && sent.value.payload.fields["pinataContent"] == request.value
    // response classification
    ensures sent.Some? && response.FetchThrew? ==> reply == ThrownReply(response.message)
    ensures sent.Some? && response.Fetched? && response.parsed.None? ==>
      reply == Reply(500, RawErrorBody("Invalid response from Pinata", response.text))
    ensures sent.Some? && response.Fetched? && response.parsed.Some? &&
            (!response.ok || !Present(Field(response.parsed.value, "IpfsHash"))) ==>
      reply == Reply(500, DetailErrorBody("Pinata upload failed", response.parsed.value))
    ensures reply.status == 200 <==>
      && sent.Some? && response.Fetched? && response.ok && response.parsed.Some?
      && Present(Field(response.parsed.value, "IpfsHash"))
    ensures reply.status == 200 ==> reply == PinnedReply(response.parsed.value.fields["IpfsHash"])
    ensures reply.status != 200 ==> reply.status in {400, 500} && !reply.body.PinnedBody?
    ensures RouteReply(reply)
  {
    sent := None;
    if request.Threw? {
      return ThrownReply(request.message), sent;
    }
    var metadata := request.value;
    if !Present(Field(metadata, "name")) || !Present(Field(metadata, "image")) {
      return Reply(400, ErrorBody("Missing name or image")), sent;
    }
    var headers := SelectHeaders(env);
    if headers.None? {
      return Reply(500, ErrorBody("Missing Pinata credentials")), sent;
    }
    sent := Some(PinRequest(PinEndpoint, headers.value, Payload(metadata)));
    match response {
      case FetchThrew(message) =>
        reply := ThrownReply(message);
      case Fetched(ok, text, parsed) =>
        if parsed.None? {
          return Reply(500, RawErrorBody("Invalid response from Pinata", text)), sent;
        }
        var data := parsed.value;
        if !ok || !Present(Field(data, "IpfsHash")) {
          return Reply(500, DetailErrorBody("Pinata upload failed", data)), sent;
        }
        reply := PinnedReply(Field(data, "IpfsHash").value);
    }
  }
}
