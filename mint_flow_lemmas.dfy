/** What the session bootstrap and the mint handler promise, one concern per lemma. */
module MintFlowLemmas {
  import opened Base
  import opened Decimal
  import opened Json
  import opened MintFlow
  import Rarity
  import Metadata

  /** No toast is ever blank. */
  lemma ToastNeverBlank(t: Toast)
    ensures ToastText(t) != ""
  {
  }

  /**
   * Without a fid only the toast changes; a held lock or an earlier generation makes the
   * call a no-op. Otherwise the record is inserted with the drawn index and its colour, the
   * lock stays held for the timer, and only a successful insert adopts the selection.
   */
  lemma GenerateOutcomes(s: UiState, idx: int, insertOk: bool)
    requires 0 <= idx < Total
    ensures var t := Generate(s, idx, insertOk);
      && (!HasFid(s) ==> t == Run(s.(toast := Some(FidNotFound)), []))
      && (HasFid(s) && !GenerateProceeds(s) ==> t == Run(s, []))
      && (GenerateProceeds(s) ==>
            && |t.effects| >= 1
            && t.effects[0] == InsertRecord(s.fid.value, idx, Rarity.ColourName(Rarity.RarityByRank(idx)))
            && !t.state.isGenerating && t.state.isButtonLocked)
      // success: the drawn index and its colour are adopted
      && (GenerateProceeds(s) && insertOk ==>
            && t.state.selectedIndex == Some(idx) && idx == 0
            && t.state.rankColor == Some(Rarity.ColourName(Rarity.RarityByRank(idx)))
            && t.state.hasGenerated && t.state.step == Generated
            && t.effects == [InsertRecord(s.fid.value, idx, "purple"), StepTo(Generated)])
      // an insert error is a failure: only the toast and the pending lock change
      && (GenerateProceeds(s) && !insertOk ==>
            t == Run(s.(isButtonLocked := true, toast := Some(SaveFailed)), [t.effects[0]]))
      && t.state.fid == s.fid && t.state.username == s.username && t.state.hasMinted == s.hasMinted
      && t.state.isMinting == s.isMinting && t.state.lastClick == s.lastClick
  {
  }

  /** Without a fid, or when the bootstrap throws, the session is ineligible; a record decides the rest. */
  lemma BootstrapRouting(s: UiState, ctx: SdkOutcome, lookup: LookupOutcome)
    ensures var t := Bootstrap(s, ctx, lookup);
      && (t.state.step == Ineligible <==> ctx.SdkThrew? || ctx.fid.None? || lookup.LookupThrew?)
      && (t.state.step == Eligible <==> ctx.SdkContext? && ctx.fid.Some? && lookup == LookupReturned(None))
      && (t.state.step == Generated <==>
            ctx.SdkContext? && ctx.fid.Some? && lookup.LookupReturned? && lookup.record.Some? && !lookup.record.value.minted)
      && (t.state.step == Done <==>
            ctx.SdkContext? && ctx.fid.Some? && lookup.LookupReturned? && lookup.record.Some? && lookup.record.value.minted)
      && t.state.hasMinted == (s.hasMinted || t.state.step == Done)
  {
  }

  /** A stored record is adopted as it is; otherwise the selection is left alone. */
  lemma BootstrapAdoptsRecord(s: UiState, ctx: SdkOutcome, lookup: LookupOutcome)
    ensures var t := Bootstrap(s, ctx, lookup);
      && (t.state.step in {Generated, Done} ==>
            var r := lookup.record.value;
            t.state.hasGenerated && t.state.selectedIndex == r.imageIndex && t.state.rankColor == r.rarity)
      && (t.state.step !in {Generated, Done} ==>
            t.state.hasGenerated == s.hasGenerated && t.state.selectedIndex == s.selectedIndex
            && t.state.rankColor == s.rankColor)
  {
    if ctx.SdkThrew? {
    } else if ctx.fid.None? {
    } else {
      var known := s.(fid := Some(NatToString(ctx.fid.value)),
                      username := UsernameOrNull(ctx));
      assert Bootstrap(s, ctx, lookup).state == Classify(known, lookup).state;
      ClassifyAdoptsRecord(known, lookup);
    }
  }

  /** `BootstrapAdoptsRecord` for the stage after the lookup. */
  lemma ClassifyAdoptsRecord(s: UiState, lookup: LookupOutcome)
    ensures var t := Classify(s, lookup);
      && (t.state.step in {Generated, Done} ==>
            var r := lookup.record.value;
            t.state.hasGenerated && t.state.selectedIndex == r.imageIndex && t.state.rankColor == r.rarity)
      && (t.state.step !in {Generated, Done} ==>
            t.state.hasGenerated == s.hasGenerated && t.state.selectedIndex == s.selectedIndex
            && t.state.rankColor == s.rankColor)
  {
    if lookup.LookupThrew? {
    } else if lookup.record.None? {
    } else if lookup.record.value.minted {
    } else {
    }
  }

  /** The fid is kept as its decimal string, which `BigInt` reads back as the SDK's number. */
  lemma BootstrapKeepsFid(s: UiState, ctx: SdkOutcome, lookup: LookupOutcome)
    ensures var t := Bootstrap(s, ctx, lookup);
      && (ctx.SdkContext? && ctx.fid.Some? ==>
            && t.state.fid == Some(NatToString(ctx.fid.value))
            && BigIntOf(t.state.fid.value) == Some(ctx.fid.value)
            && t.state.username == UsernameOrNull(ctx))
      && (!(ctx.SdkContext? && ctx.fid.Some?) ==> t.state.fid == s.fid && t.state.username == s.username)
  {
    if ctx.SdkContext? && ctx.fid.Some? {
      BigIntOfNatToString(ctx.fid.value);
    }
  }

  /** The only remote call is the lookup, made only with a fid; the step is set exactly once. */
  lemma BootstrapEffects(s: UiState, ctx: SdkOutcome, lookup: LookupOutcome)
    ensures var t := Bootstrap(s, ctx, lookup);
      && t.effects ==
           (if ctx.SdkContext? && ctx.fid.Some? then [LookupRecord(NatToString(ctx.fid.value))] else [])
           + [StepTo(t.state.step)]
  {
    if ctx.SdkThrew? {
    } else if ctx.fid.None? {
    } else {
      var f := NatToString(ctx.fid.value);
      var known := s.(fid := Some(f),
                      username := UsernameOrNull(ctx));
      var c := Classify(known, lookup);
      assert Bootstrap(s, ctx, lookup) == Run(c.state, [LookupRecord(f)] + c.effects);
      ClassifyEffects(known, lookup);
    }
  }

  /** The mount effect leaves the toast, both locks and the click map as they were. */
  lemma BootstrapKeepsControls(s: UiState, ctx: SdkOutcome, lookup: LookupOutcome)
    ensures SameControls(s, Bootstrap(s, ctx, lookup).state)
  {
    if ctx.SdkThrew? {
    } else if ctx.fid.None? {
    } else {
      var known := s.(fid := Some(NatToString(ctx.fid.value)),
                      username := UsernameOrNull(ctx));
      assert Bootstrap(s, ctx, lookup).state == Classify(known, lookup).state;
      ClassifyEffects(known, lookup);
    }
  }

  /** `BootstrapEffects` for the stage after the lookup: one step and nothing else. */
  lemma ClassifyEffects(s: UiState, lookup: LookupOutcome)
    ensures var t := Classify(s, lookup);
      t.effects == [StepTo(t.state.step)] && SameControls(s, t.state)
  {
    if lookup.LookupThrew? {
    } else if lookup.record.None? {
    } else if lookup.record.value.minted {
    } else {
    }
  }

  /** Nothing to mint is refused with a toast; a held lock makes the call a no-op. */
  lemma MintGuards(s: UiState, e: MintEnv)
    ensures !HasFid(s) || s.selectedIndex.None? ==>
      Mint(s, e) == Run(s.(toast := Some(NothingToMint)), [])
    ensures HasFid(s) && s.selectedIndex.Some? && !MintProceeds(s) ==> Mint(s, e) == Run(s, [])
  {
  }

  /** Past the guards: the locks stay held for the release timer, and the pass ends generated or done. */
  lemma MintHoldsLocks(s: UiState, e: MintEnv)
    requires MintProceeds(s)
    ensures var t := Mint(s, e);
      && t.state.isButtonLocked && t.state.isMinting
      && t.state.step in {Generated, Done}
      && |t.effects| >= 2 && t.effects[0] == StepTo(Minting)
  {
    var r := MintLocked(Lock(s), e);
    LockedPassHoldsLocks(Lock(s), e);
    assert Mint(s, e) == Run(r.state, [StepTo(Minting)] + r.effects);
  }

  /** The `try` block from a locked state keeps the locks and ends generated or done. */
  lemma LockedPassHoldsLocks(m: UiState, e: MintEnv)
    requires m.fid.Some? && m.selectedIndex.Some? && m.isButtonLocked && m.isMinting
    ensures var t := MintLocked(m, e);
      t.state.isButtonLocked && t.state.isMinting && t.state.step in {Generated, Done} && |t.effects| >= 1
  {
    if !e.isConnected {
      if !e.hasConnector {
      } else if e.connect.Failed? {
      } else {
      }
    } else if Balance(e) < MintPriceWei {
    } else if e.upload.Threw? {
    } else if !Present(Field(e.upload.value, "ipfs")) {
    } else if BigIntOf(m.fid.value).None? {
    } else if e.write.Failed? {
    } else {
    }
  }

  /** Without a wallet the pass only connects (if a connector exists) and stops. */
  lemma MintConnectsAndStops(s: UiState, e: MintEnv)
    requires MintProceeds(s) && !e.isConnected
    ensures var t := Mint(s, e);
      && t.state.step == Generated
      && t.effects == [StepTo(Minting)] + (if e.hasConnector then [ConnectWallet] else []) + [StepTo(Generated)]
  {
    if !e.hasConnector {
    } else if e.connect.Failed? {
    } else {
    }
  }

  /** A balance below the price returns to generated without uploading. */
  lemma MintNeedsBalance(s: UiState, e: MintEnv)
    requires MintProceeds(s) && e.isConnected && Balance(e) < MintPriceWei
    ensures var t := Mint(s, e);
      && t.state.step == Generated
      && t.effects == [StepTo(Minting), StepTo(Generated)]
      && t.state.toast == Some(NeedGas)
  {
  }

  /** An upload whose reply lacks a truthy `ipfs` stops the pass before any contract write. */
  lemma MintNeedsUri(s: UiState, e: MintEnv)
    requires MintProceeds(s) && e.isConnected && Balance(e) >= MintPriceWei && !UploadGivesUri(e)
    ensures var t := Mint(s, e);
      && t.state.step == Generated
      && t.effects == [StepTo(Minting), UploadMetadata(MintDocument(s, e.origin)), StepTo(Generated)]
  {
  }

  /** A connected, funded pass uploads the document right after entering minting. */
  lemma MintUploadsFirst(s: UiState, e: MintEnv)
    requires MintProceeds(s) && e.isConnected && Balance(e) >= MintPriceWei
    ensures var t := Mint(s, e);
      |t.effects| >= 2 && t.effects[..2] == [StepTo(Minting), UploadMetadata(MintDocument(s, e.origin))]
  {
    var u := Lock(s).(status := UploadingMetadata);
    assert MintDocument(u, e.origin) == MintDocument(s, e.origin);
  }

  /**
   * With a uri the contract is written with the fid, the uri and the price; the record is
   * updated and the pass reaches done only when the write succeeded, and then regardless of
   * the update's outcome.
   */
  lemma MintWritesThenRecords(s: UiState, e: MintEnv)
    requires MintProceeds(s) && e.isConnected && Balance(e) >= MintPriceWei && UploadGivesUri(e)
    requires BigIntOf(s.fid.value).Some?
    ensures var t := Mint(s, e);
      var doc := MintDocument(s, e.origin);
      && |t.effects| >= 4
      && t.effects[..3] == [StepTo(Minting), UploadMetadata(doc),
                            WriteContract(BigIntOf(s.fid.value).value, Field(e.upload.value, "ipfs").value, MintPriceWei)]
      && (e.write.Succeeded? ==>
            t.effects[3..] == [UpdateRecord(s.fid.value, doc), StepTo(Done)] && t.state.step == Done && t.state.hasMinted)
      && (e.write.Failed? ==> t.effects[3..] == [StepTo(Generated)] && t.state.step == Generated)
  {
    var u := Lock(s).(status := UploadingMetadata);
    var w := u.(status := MintingOnBase);
    var doc := MintDocument(s, e.origin);
    assert MintDocument(u, e.origin) == doc;
    var uri := Field(e.upload.value, "ipfs").value;
    WriteOutcome(w, uri, doc, e);
    var wr := Write(w, uri, doc, e);
    assert Mint(s, e) == Run(wr.state, [StepTo(Minting), UploadMetadata(doc)] + wr.effects);
  }

  /** The contract-write stage: the write first, then the update and done only on success. */
  lemma WriteOutcome(w: UiState, uri: Json, doc: Metadata.Metadata, e: MintEnv)
    requires w.fid.Some? && BigIntOf(w.fid.value).Some?
    ensures var t := Write(w, uri, doc, e);
      && |t.effects| >= 2
      && t.effects[0] == WriteContract(BigIntOf(w.fid.value).value, uri, MintPriceWei)
      && (e.write.Succeeded? ==>
            t.effects[1..] == [UpdateRecord(w.fid.value, doc), StepTo(Done)] && t.state.step == Done && t.state.hasMinted)
      && (e.write.Failed? ==> t.effects[1..] == [StepTo(Generated)] && t.state.step == Generated)
  {
    if e.write.Failed? {
    } else {
    }
  }

  /** The update's outcome is never inspected. */
  lemma MintIgnoresRecordUpdate(s: UiState, e: MintEnv, updated: bool)
    ensures Mint(s, e.(recordUpdated := updated)) == Mint(s, e)
  {
  }

  /** The `catch` of `handleMint` changes neither the selection nor `hasMinted`. */
  lemma FailureKeepsSelection(m: UiState, error: MintError)
    ensures var t := MintFailure(m, error).state;
      t.hasMinted == m.hasMinted && t.step == Generated && SameSelection(m, t)
  {
  }

  /** The contract-write stage changes no selection, and `hasMinted` only on reaching done. */
  lemma WriteKeepsSelection(w: UiState, uri: Json, doc: Metadata.Metadata, e: MintEnv)
    requires w.fid.Some?
    ensures var t := Write(w, uri, doc, e).state;
      (t.step != Done ==> t.hasMinted == w.hasMinted) && SameSelection(w, t)
  {
    if BigIntOf(w.fid.value).None? {
      FailureKeepsSelection(w, NotABigInt(w.fid.value));
    } else if e.write.Failed? {
      FailureKeepsSelection(w, Thrown(e.write.message));
    }
  }

  /** The same for the upload stage. */
  lemma UploadKeepsSelection(u: UiState, e: MintEnv)
    requires u.fid.Some? && u.selectedIndex.Some?
    ensures var t := Upload(u, e).state;
      (t.step != Done ==> t.hasMinted == u.hasMinted) && SameSelection(u, t)
  {
    if e.upload.Threw? {
      FailureKeepsSelection(u, Thrown(e.upload.message));
    } else if !Present(Field(e.upload.value, "ipfs")) {
      FailureKeepsSelection(u, UploadFailed);
    } else {
      var w := u.(status := MintingOnBase);
      var uri := Field(e.upload.value, "ipfs").value;
      assert Upload(u, e).state == Write(w, uri, MintDocument(u, e.origin), e).state;
      WriteKeepsSelection(w, uri, MintDocument(u, e.origin), e);
    }
  }

  /** `hasMinted` changes only on reaching done, and the selection is never touched. */
  lemma MintKeepsSelection(s: UiState, e: MintEnv)
    ensures var t := Mint(s, e);
      && (t.state.step != Done ==> t.state.hasMinted == s.hasMinted)
      && SameSelection(s, t.state)
  {
    if !MintProceeds(s) {
    } else if !e.isConnected {
      if !e.hasConnector {
      } else if e.connect.Failed? {
      } else {
      }
    } else if Balance(e) < MintPriceWei {
    } else {
      UploadKeepsSelection(Lock(s).(status := UploadingMetadata), e);
    }
  }
}
