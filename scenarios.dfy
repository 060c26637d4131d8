/**
 * The controller and the upload route together: the document `handleMint` posts is the
 * body `/api/upload` accepts, and the route's reply decides whether the contract is
 * written. The request body is taken to reach the route as `JSON.stringify` wrote it.
 */
module Scenarios {
  import opened Base
  import opened Decimal
  import opened Json
  import Metadata
  import opened Pinning
  import UploadRoute
  import opened MintFlow
  import opened MintFlowLemmas

  /** The route's `name`/`image` check never rejects the controller's document. */
  lemma MintDocumentAccepted(s: UiState, origin: string)
    requires s.fid.Some? && s.selectedIndex.Some?
    ensures ValidBody(Metadata.ToJson(MintDocument(s, origin)))
  {
  }

  /**
   * A mint pass past the balance check that reads a route's reply: it writes the contract,
   * with the route's `ipfs://` URI, exactly when the reply is the success reply; any route
   * error ends the pass in `generated` with the toast `'Upload failed.'`.
   */
  lemma MintReadsRouteReply(s: UiState, e: MintEnv, reply: Reply)
    requires MintProceeds(s) && e.isConnected && Balance(e) >= MintPriceWei && RouteReply(reply)
    ensures var t := Mint(s, e.(upload := Decoded(ReplyJson(reply))));
      && |t.effects| >= 2 && t.effects[1] == UploadMetadata(MintDocument(s, e.origin))
      && (!reply.body.PinnedBody? ==>
            && t.state.step == Generated && t.state.toast == Some(MintFailed(UploadFailed))
            && t.effects == [StepTo(Minting), UploadMetadata(MintDocument(s, e.origin)), StepTo(Generated)])
      && (reply.body.PinnedBody? && BigIntOf(s.fid.value).Some? ==>
            && |t.effects| >= 3
            && t.effects[2] == WriteContract(BigIntOf(s.fid.value).value, JStr(IpfsScheme + ToText(reply.body.hash)), MintPriceWei))
      && (BigIntOf(s.fid.value).Some? ==> (t.state.step == Done <==> reply.body.PinnedBody? && e.write.Succeeded?))
  {
    var e' := e.(upload := Decoded(ReplyJson(reply)));
    IpfsFieldMeansPinned(reply);
    MintUploadsFirst(s, e');
    if reply.body.PinnedBody? {
      if BigIntOf(s.fid.value).Some? {
        MintWritesThenRecords(s, e');
      }
    } else {
      MintNeedsUri(s, e');
    }
  }

  /**
   * One mint pass with `/api/upload` answering it: a request is sent to Pinata exactly when
   * credentials exist, carrying the controller's document; the pass is done exactly when
   * the route answered 200 and the contract write succeeded.
   */
  method MintThroughUploadRoute(s: UiState, e: MintEnv, env: PinataEnv, response: FetchOutcome)
    returns (reply: Reply, sent: Option<PinRequest>, t: Run)
    requires MintProceeds(s) && e.isConnected && Balance(e) >= MintPriceWei
    ensures sent.Some? <==> HasCredentials(env)
    ensures sent.Some? ==> sent.value.payload == UploadRoute.Payload(Metadata.ToJson(MintDocument(s, e.origin)))
    ensures t == Mint(s, e.(upload := Decoded(ReplyJson(reply))))
    ensures reply.status != 200 ==> t.state.step == Generated && t.state.toast == Some(MintFailed(UploadFailed))
    ensures BigIntOf(s.fid.value).Some? ==> (t.state.step == Done <==> reply.status == 200 && e.write.Succeeded?)
  {
    var doc := MintDocument(s, e.origin);
    MintDocumentAccepted(s, e.origin);
    reply, sent := UploadRoute.Post(Decoded(Metadata.ToJson(doc)), env, response);
    MintReadsRouteReply(s, e, reply);
    t := Mint(s, e.(upload := Decoded(ReplyJson(reply))));
  }

  /**
   * The intended path from mount: a Farcaster user with fid `n` and no record is eligible;
   * a generate click saves image 1; once the lock timer has fired a mint click with a
   * funded wallet and a pinned document writes token `n` and ends done.
   */
  lemma HappyPath(n: nat, name: Option<string>, now: int, later: int, e: MintEnv)
    requires now >= GenerateDebounceMs && later >= MintDebounceMs
    requires e.isConnected && Balance(e) >= MintPriceWei && UploadGivesUri(e) && e.write.Succeeded?
    ensures var boot := Bootstrap(Initial, SdkContext(Some(n), name), LookupReturned(None));
      && boot.state.step == Eligible
      && var generated := GenerateClick(boot.state, now, 0, true);
      && generated.state.step == Generated && generated.state.selectedIndex == Some(0)
      && var minted := Mint(ReleaseGenerateLock(generated.state).(lastClick := generated.state.lastClick["mint" := later]), e);
      && MintClick(ReleaseGenerateLock(generated.state), later, e) == minted
      && minted.state.step == Done && minted.state.hasMinted
      && minted.effects[2] == WriteContract(n, Field(e.upload.value, "ipfs").value, MintPriceWei)
  {
    var boot := Bootstrap(Initial, SdkContext(Some(n), name), LookupReturned(None));
    BootstrapRouting(Initial, SdkContext(Some(n), name), LookupReturned(None));
    BootstrapKeepsFid(Initial, SdkContext(Some(n), name), LookupReturned(None));
    BootstrapAdoptsRecord(Initial, SdkContext(Some(n), name), LookupReturned(None));
    BootstrapEffects(Initial, SdkContext(Some(n), name), LookupReturned(None));
    BootstrapKeepsControls(Initial, SdkContext(Some(n), name), LookupReturned(None));
    var d := Debounce(boot.state.lastClick, "generate", GenerateDebounceMs, now);
    GenerateOutcomes(boot.state.(lastClick := d.last), 0, true);
    var generated := GenerateClick(boot.state, now, 0, true);
    var ready := ReleaseGenerateLock(generated.state).(lastClick := generated.state.lastClick["mint" := later]);
    assert "mint" !in generated.state.lastClick;
    MintWritesThenRecords(ready, e);
  }
}
