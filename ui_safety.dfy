/**
 * What the rendered component lets a user do, and what holds across any sequence of user
 * clicks and lock timers: the session never leaves a handler in `minting`, only goes back
 * from `minting` to `generated`, and records at most one mint.
 */
module UiSafety {
  import opened Base
  import opened Decimal
  import opened Json
  import Metadata
  import opened MintFlow
  import opened MintFlowLemmas

  // ---------------------------------------------------------------------------
  // Render gates

  /** The generate button is rendered in `eligible`. */
  predicate GenerateShown(s: UiState) { s.step == Eligible }

  /** ... and clickable unless generating, generated or locked. */
  predicate GenerateEnabled(s: UiState)
  {
    GenerateShown(s) && !(s.isGenerating || s.hasGenerated || s.isButtonLocked)
  }

  /** The mint button is rendered in `generated` with an image and no mint yet. */
  predicate MintShown(s: UiState)
  {
    s.step == Generated && !s.hasMinted && s.selectedIndex.Some?
  }

  /** ... and clickable unless minting or locked. */
  predicate MintEnabled(s: UiState)
  {
    MintShown(s) && !(s.isMinting || s.isButtonLocked)
  }

  /** Share and OpenSea appear once done or minted. */
  predicate ShareShown(s: UiState) { s.step == Done || s.hasMinted }

  /** The link into Farcaster appears when ineligible. */
  predicate EscapeShown(s: UiState) { s.step == Ineligible }

  /** The caption under the image: shown with an image and a non-empty fid. */
  function Caption(s: UiState): Option<string>
  {
    if s.selectedIndex.Some? && HasFid(s) then
      Some(if s.username.Some? && s.username.value != "" then s.username.value + " #" + s.fid.value
           else "User #" + s.fid.value)
    else None
  }

  /** The caption is the name the mint handler puts in the metadata. */
  lemma CaptionIsMetadataName(s: UiState, origin: string)
    requires Caption(s).Some?
    ensures Caption(s).value == MintDocument(s, origin).name
  {
  }

  // ---------------------------------------------------------------------------
  // The invariant between events

  /** What holds whenever no handler is running. */
  predicate Consistent(s: UiState)
  {
    && s.step != Minting
    && (s.hasMinted <==> s.step == Done)
    && (s.step in {Eligible, Generated, Done} ==> HasFid(s))
    && (s.step in {Generated, Done} ==> s.hasGenerated)
    && (s.step in {Loading, Eligible, Ineligible} ==> !s.hasGenerated)
    && (s.selectedIndex.Some? ==> s.hasGenerated)
    && (s.fid.Some? ==> BigIntOf(s.fid.value).Some?)
  }

  /** At most one group of action buttons is on screen. */
  lemma GatesExclusive(s: UiState)
    requires Consistent(s)
    ensures GenerateShown(s) ==> !MintShown(s) && !ShareShown(s) && !EscapeShown(s)
    ensures MintShown(s) ==> !ShareShown(s) && !EscapeShown(s)
    ensures ShareShown(s) ==> !EscapeShown(s)
    ensures s.step == Loading ==> !GenerateShown(s) && !MintShown(s) && !ShareShown(s) && !EscapeShown(s)
  {
  }

  lemma InitialConsistent()
    ensures Consistent(Initial)
  {
  }

  /** The mount effect leaves a consistent state. */
  lemma BootstrapConsistent(ctx: SdkOutcome, lookup: LookupOutcome)
    ensures Consistent(Bootstrap(Initial, ctx, lookup).state)
    ensures Finalizations(Bootstrap(Initial, ctx, lookup).effects) == 0
  {
    BootstrapRouting(Initial, ctx, lookup);
    BootstrapAdoptsRecord(Initial, ctx, lookup);
    BootstrapKeepsFid(Initial, ctx, lookup);
    BootstrapEffects(Initial, ctx, lookup);
    var effs := Bootstrap(Initial, ctx, lookup).effects;
    if ctx.SdkContext? && ctx.fid.Some? {
      assert effs[1..] == [effs[1]];
    }
  }

  // ---------------------------------------------------------------------------
  // Logs of one handler

  /**
   * `r` is what a handler did from step `from` with `was` for `hasMinted`: every `setStep`
   * goes forward (or from `minting` back to `generated`), the last one is the final step,
   * `hasMinted` is set exactly when `done` is reached, and a record update is logged exactly
   * when `hasMinted` was set.
   */
  predicate Settles(from: Step, was: bool, r: Run)
  {
    && StepsForward(from, r.effects)
    && LastStep(from, r.effects) == r.state.step
    && (r.state.hasMinted <==> was || r.state.step == Done)
    && Finalizations(r.effects) == (if r.state.hasMinted && !was then 1 else 0)
  }

  /** Logging `x` before a run. */
  lemma AfterLog(from: Step, x: Effect, r: Run)
    ensures var effs := After(x, r).effects; var next := if x.StepTo? then x.step else from;
      && LastStep(from, effs) == LastStep(next, r.effects)
      && (StepsForward(from, effs) <==> (x.StepTo? ==> Forward(from, x.step)) && StepsForward(next, r.effects))
      && Finalizations(effs) == (if x.UpdateRecord? then 1 else 0) + Finalizations(r.effects)
  {
    var effs := After(x, r).effects;
    assert effs[0] == x;
    assert effs[1..] == r.effects;
  }

  lemma FailureSettles(m: UiState, error: MintError)
    requires m.step == Minting && !m.hasMinted
    ensures Settles(Minting, false, MintFailure(m, error))
  {
    var effs := MintFailure(m, error).effects;
    assert effs[1..] == [];
  }

  lemma WriteSettles(w: UiState, uri: Json, doc: Metadata.Metadata, e: MintEnv)
    requires w.fid.Some? && w.step == Minting && !w.hasMinted
    ensures Settles(Minting, false, Write(w, uri, doc, e))
  {
    var token := BigIntOf(w.fid.value);
    if token.None? {
      FailureSettles(w, NotABigInt(w.fid.value));
    } else {
      var x := WriteContract(token.value, uri, MintPriceWei);
      if e.write.Failed? {
        FailureSettles(w, Thrown(e.write.message));
        AfterLog(Minting, x, MintFailure(w, Thrown(e.write.message)));
      } else {
        var done := Run(w.(hasMinted := true, step := Done, status := AlreadyMinted, toast := Some(MintSucceeded)),
                        [UpdateRecord(w.fid.value, doc), StepTo(Done)]);
        AfterLog(Minting, UpdateRecord(w.fid.value, doc), Run(done.state, [StepTo(Done)]));
        assert [StepTo(Done)][1..] == [];
        AfterLog(Minting, x, done);
      }
    }
  }

  lemma UploadSettles(u: UiState, e: MintEnv)
    requires u.fid.Some? && u.selectedIndex.Some? && u.step == Minting && !u.hasMinted
    ensures Settles(Minting, false, Upload(u, e))
  {
    var doc := MintDocument(u, e.origin);
    var inner :=
      if e.upload.Threw? then MintFailure(u, Thrown(e.upload.message))
      else if !Present(Field(e.upload.value, "ipfs")) then MintFailure(u, UploadFailed)
      else Write(u.(status := MintingOnBase), Field(e.upload.value, "ipfs").value, doc, e);
    if e.upload.Threw? {
      FailureSettles(u, Thrown(e.upload.message));
    } else if !Present(Field(e.upload.value, "ipfs")) {
      FailureSettles(u, UploadFailed);
    } else {
      WriteSettles(u.(status := MintingOnBase), Field(e.upload.value, "ipfs").value, doc, e);
    }
    AfterLog(Minting, UploadMetadata(doc), inner);
  }

  lemma ConnectSettles(m: UiState, e: MintEnv)
    requires m.step == Minting && !m.hasMinted
    ensures Settles(Minting, false, Connect(m, e))
  {
    if !e.hasConnector {
      FailureSettles(m, NoConnector);
    } else if e.connect.Failed? {
      FailureSettles(m, Thrown(e.connect.message));
      AfterLog(Minting, ConnectWallet, MintFailure(m, Thrown(e.connect.message)));
    } else {
      var t := Connect(m, e);
      assert t.effects[1..] == [StepTo(Generated)] && t.effects[1..][1..] == [];
    }
  }

  lemma MintSettles(s: UiState, e: MintEnv)
    requires MintProceeds(s) && s.step == Generated && !s.hasMinted
    ensures Settles(Generated, false, Mint(s, e))
  {
    var m := Lock(s);
    if !e.isConnected {
      ConnectSettles(m, e);
    } else if Balance(e) < MintPriceWei {
      assert MintLocked(m, e).effects[1..] == [];
    } else {
      UploadSettles(m.(status := UploadingMetadata), e);
    }
    AfterLog(Generated, StepTo(Minting), MintLocked(m, e));
  }

  // ---------------------------------------------------------------------------
  // Events

  /** What can happen between two handler runs. */
  datatype UiEvent =
    | ClickGenerate(now: int, index: int, insertOk: bool)
    | ClickMint(now: int, env: MintEnv)
    | GenerateLockTimer
    | MintLockTimer

  /** A click needs its button on screen and clickable; a timer can fire at any time. */
  predicate Enabled(s: UiState, ev: UiEvent)
  {
    match ev
    case ClickGenerate(_, index, _) => GenerateEnabled(s) && 0 <= index < Total
    case ClickMint(_, _) => MintEnabled(s)
    case _ => true
  }

  function Apply(s: UiState, ev: UiEvent): Run
    requires Enabled(s, ev)
  {
    match ev
    case ClickGenerate(now, index, insertOk) => GenerateClick(s, now, index, insertOk)
    case ClickMint(now, env) => MintClick(s, now, env)
    case GenerateLockTimer => Run(ReleaseGenerateLock(s), [])
    case MintLockTimer => Run(ReleaseMintLocks(s), [])
  }

  /** The clicks a user makes in order, with the disabled ones ignored. */
  function RunEvents(s: UiState, evs: seq<UiEvent>): Run
    decreases |evs|
  {
    if evs == [] then Run(s, [])
    else
      var first := if Enabled(s, evs[0]) then Apply(s, evs[0]) else Run(s, []);
      var rest := RunEvents(first.state, evs[1..]);
      Run(rest.state, first.effects + rest.effects)
  }

  lemma GenerateClickSafe(s: UiState, now: int, idx: int, insertOk: bool)
    requires Consistent(s) && GenerateEnabled(s) && 0 <= idx < Total
    ensures var t := GenerateClick(s, now, idx, insertOk);
      Consistent(t.state) && Settles(s.step, s.hasMinted, t)
  {
    var d := Debounce(s.lastClick, "generate", GenerateDebounceMs, now);
    if d.allowed {
      var s' := s.(lastClick := d.last);
      GenerateOutcomes(s', idx, insertOk);
      var t := Generate(s', idx, insertOk);
      if insertOk {
        var rest := Run(t.state, [StepTo(Generated)]);
        assert After(t.effects[0], rest) == t;
        assert rest.effects[1..] == [];
        AfterLog(s.step, t.effects[0], rest);
      } else {
        assert t.effects[1..] == [];
      }
    }
  }

  lemma MintClickSafe(s: UiState, now: int, e: MintEnv)
    requires Consistent(s) && MintEnabled(s)
    ensures var t := MintClick(s, now, e);
      Consistent(t.state) && Settles(s.step, s.hasMinted, t)
  {
    var d := Debounce(s.lastClick, "mint", MintDebounceMs, now);
    if d.allowed {
      var s' := s.(lastClick := d.last);
      MintSettles(s', e);
      MintHoldsLocks(s', e);
      MintKeepsSelection(s', e);
    }
  }

  /** Every enabled event keeps the invariant, and its log settles. */
  lemma ApplySafe(s: UiState, ev: UiEvent)
    requires Consistent(s) && Enabled(s, ev)
    ensures Consistent(Apply(s, ev).state) && Settles(s.step, s.hasMinted, Apply(s, ev))
  {
    match ev
    case ClickGenerate(now, index, insertOk) => GenerateClickSafe(s, now, index, insertOk);
    case ClickMint(now, env) => MintClickSafe(s, now, env);
    case GenerateLockTimer =>
    case MintLockTimer =>
  }

  /**
   * Over any sequence of events from a consistent state: the invariant holds at the end,
   * steps only go forward except a paused or failed mint, and the record is updated to
   * minted at most once, and never if it was minted already.
   */
  lemma {:induction false} RunEventsSafe(s: UiState, evs: seq<UiEvent>)
    requires Consistent(s)
    ensures var t := RunEvents(s, evs);
      && Consistent(t.state)
      && Settles(s.step, s.hasMinted, t)
    decreases |evs|
  {
    if evs != [] {
      var first := if Enabled(s, evs[0]) then Apply(s, evs[0]) else Run(s, []);
      if Enabled(s, evs[0]) {
        ApplySafe(s, evs[0]);
      }
      RunEventsSafe(first.state, evs[1..]);
      var rest := RunEvents(first.state, evs[1..]);
      StepsAppend(s.step, first.effects, rest.effects);
      FinalizationsAppend(first.effects, rest.effects);
    }
  }

  /** A whole session: mount, then the user's events. */
  function Session(ctx: SdkOutcome, lookup: LookupOutcome, evs: seq<UiEvent>): Run
  {
    var boot := Bootstrap(Initial, ctx, lookup);
    var rest := RunEvents(boot.state, evs);
    Run(rest.state, boot.effects + rest.effects)
  }

  /** A session records at most one mint, none if the stored record was minted, and ends consistent. */
  lemma SessionMintsAtMostOnce(ctx: SdkOutcome, lookup: LookupOutcome, evs: seq<UiEvent>)
    ensures var t := Session(ctx, lookup, evs);
      && Consistent(t.state)
      && Finalizations(t.effects) <= 1
      && (Bootstrap(Initial, ctx, lookup).state.hasMinted ==> Finalizations(t.effects) == 0)
  {
    var boot := Bootstrap(Initial, ctx, lookup);
    BootstrapConsistent(ctx, lookup);
    RunEventsSafe(boot.state, evs);
    FinalizationsAppend(boot.effects, RunEvents(boot.state, evs).effects);
  }

  // ---------------------------------------------------------------------------
  // Repeated clicks

  /** A second mint click within 800 ms of an accepted one does nothing. */
  lemma MintDoubleClickIgnored(s: UiState, now: int, later: int, e: MintEnv, e2: MintEnv)
    requires Debounce(s.lastClick, "mint", MintDebounceMs, now).allowed
    requires now <= later < now + MintDebounceMs
    ensures var t := MintClick(s, now, e).state;
      MintClick(t, later, e2) == Run(t, [])
  {
    var d := Debounce(s.lastClick, "mint", MintDebounceMs, now);
    MintKeepsSelection(s.(lastClick := d.last), e);
  }

  /** A second generate click within 600 ms of an accepted one does nothing. */
  lemma GenerateDoubleClickIgnored(s: UiState, now: int, later: int, idx: int, ok: bool, idx2: int, ok2: bool)
    requires 0 <= idx < Total && 0 <= idx2 < Total
    requires Debounce(s.lastClick, "generate", GenerateDebounceMs, now).allowed
    requires now <= later < now + GenerateDebounceMs
    ensures var t := GenerateClick(s, now, idx, ok).state;
      GenerateClick(t, later, idx2, ok2) == Run(t, [])
  {
    var d := Debounce(s.lastClick, "generate", GenerateDebounceMs, now);
    GenerateOutcomes(s.(lastClick := d.last), idx, ok);
  }

  /** Until the timer releases the locks, `handleMint` is a no-op after a pass that got past its guards. */
  lemma MintLockedUntilTimer(s: UiState, e: MintEnv, e2: MintEnv)
    requires MintProceeds(s)
    ensures var t := Mint(s, e).state;
      Mint(t, e2) == Run(t, [])
  {
    MintHoldsLocks(s, e);
    MintKeepsSelection(s, e);
  }

  /**
   * A mint click that ends back in `generated` (no wallet, a short balance, a failed upload
   * or write) leaves the mint button clickable again once the 800 ms timer fires, and a
   * retry whose wallet, balance, upload and write all succeed reaches `done` and marks the
   * record minted.
   */
  lemma MintRetryEnabled(s: UiState, now: int, e: MintEnv, e2: MintEnv)
    requires Consistent(s) && MintEnabled(s)
    ensures var t := MintClick(s, now, e).state;
      t.step == Generated ==> MintEnabled(ReleaseMintLocks(t))
    ensures var t := MintClick(s, now, e).state;
      (t.step == Generated && e2.isConnected && Balance(e2) >= MintPriceWei && UploadGivesUri(e2) && e2.write.Succeeded?) ==>
        var r := Mint(ReleaseMintLocks(t), e2);
        r.state.step == Done && r.state.hasMinted
  {
    var d := Debounce(s.lastClick, "mint", MintDebounceMs, now);
    var healthy := e2.isConnected && Balance(e2) >= MintPriceWei && UploadGivesUri(e2) && e2.write.Succeeded?;
    if d.allowed {
      var s' := s.(lastClick := d.last);
      MintKeepsSelection(s', e);
      var t := Mint(s', e).state;
      if t.step == Generated && healthy {
        MintWritesThenRecords(ReleaseMintLocks(t), e2);
      }
    } else if healthy {
      MintWritesThenRecords(ReleaseMintLocks(s), e2);
    }
  }

  /** After a successful generation no later call of `generateNFT` does anything, even with the lock released. */
  lemma GenerateOnce(s: UiState, idx: int, idx2: int, ok2: bool)
    requires GenerateProceeds(s) && 0 <= idx < Total && 0 <= idx2 < Total
    ensures var t := ReleaseGenerateLock(Generate(s, idx, true).state);
      Generate(t, idx2, ok2) == Run(t, [])
  {
    GenerateOutcomes(s, idx, true);
  }

  /** `handleMint` itself never reads `hasMinted`: only the render gate keeps a minted session from minting. */
  lemma MintIgnoresHasMinted(s: UiState, e: MintEnv)
    ensures Mint(s.(hasMinted := true), e).effects == Mint(s.(hasMinted := false), e).effects
  {
    if MintProceeds(s) {
      var m := Lock(s);
      assert Lock(s.(hasMinted := true)) == m.(hasMinted := true);
      assert Lock(s.(hasMinted := false)) == m.(hasMinted := false);
      LockedPassEffects(m.(hasMinted := true), m.(hasMinted := false), e);
    }
  }

  /** The log of the `try` block depends only on the fid, username, index and colour. */
  lemma LockedPassEffects(m1: UiState, m2: UiState, e: MintEnv)
    requires m1.fid.Some? && m1.selectedIndex.Some?
    requires m1.fid == m2.fid && m1.username == m2.username
    requires m1.selectedIndex == m2.selectedIndex && m1.rankColor == m2.rankColor
    ensures MintLocked(m1, e).effects == MintLocked(m2, e).effects
  {
    if !e.isConnected {
    } else if Balance(e) < MintPriceWei {
    } else {
      UploadEffects(m1.(status := UploadingMetadata), m2.(status := UploadingMetadata), e);
    }
  }

  /** The same for the upload stage. */
  lemma UploadEffects(u1: UiState, u2: UiState, e: MintEnv)
    requires u1.fid.Some? && u1.selectedIndex.Some?
    requires u1.fid == u2.fid && u1.username == u2.username
    requires u1.selectedIndex == u2.selectedIndex && u1.rankColor == u2.rankColor
    ensures Upload(u1, e).effects == Upload(u2, e).effects
  {
    var doc := MintDocument(u1, e.origin);
    assert MintDocument(u2, e.origin) == doc;
    if e.upload.Threw? {
    } else if !Present(Field(e.upload.value, "ipfs")) {
    } else {
      var uri := Field(e.upload.value, "ipfs").value;
      WriteEffects(u1.(status := MintingOnBase), u2.(status := MintingOnBase), uri, doc, e);
    }
  }

  /** The same for the write stage, which reads only the fid. */
  lemma WriteEffects(w1: UiState, w2: UiState, uri: Json, doc: Metadata.Metadata, e: MintEnv)
    requires w1.fid.Some? && w1.fid == w2.fid
    ensures Write(w1, uri, doc, e).effects == Write(w2, uri, doc, e).effects
  {
    if BigIntOf(w1.fid.value).None? {
    } else if e.write.Failed? {
    } else {
    }
  }
}
