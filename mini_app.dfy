/**
 * `BasedApolloInner` as an object: its state hooks and `lastClickRef` are fields, and each
 * handler is a method that updates them in the order the component calls its setters,
 * logging the `setStep` calls and remote calls it makes. Every method is proved to leave
 * the object in the state, and to log the effects, that the matching function of
 * `MintFlow` gives for the state before the call.
 */
module MiniApp {
  import opened Base
  import opened Decimal
  import opened Json
  import Rarity
  import Metadata
  import opened MintFlow

  class Generator {
    var step: Step
    var status: Status
    var toast: Option<Toast>
    var fid: Option<string>
    var username: Option<string>
    var selectedIndex: Option<int>
    var rankColor: Option<string>
    var isGenerating: bool
    var hasMinted: bool
    var hasGenerated: bool
    var isButtonLocked: bool
    var isMinting: bool
    var lastClick: map<string, int>

    /** The snapshot the functions of `MintFlow` work on. */
    function State(): UiState
      reads this
    {
      UiState(step, status, toast, fid, username, selectedIndex, rankColor,
              isGenerating, hasMinted, hasGenerated, isButtonLocked, isMinting, lastClick)
    }

    /** The `useState` initial values and an empty click map. */
    constructor()
      ensures State() == Initial
    {
      step := Loading;
      status := NoStatus;
      toast := None;
      fid := None;
      username := None;
      selectedIndex := None;
      rankColor := None;
      isGenerating := false;
      hasMinted := false;
      hasGenerated := false;
      isButtonLocked := false;
      isMinting := false;
      lastClick := map[];
    }

    /** The mount effect `init`. */
    method Init(ctx: SdkOutcome, lookup: LookupOutcome) returns (effects: seq<Effect>)
      modifies this
      ensures Run(State(), effects) == Bootstrap(old(State()), ctx, lookup)
    {
      if ctx.SdkThrew? {
        step := Ineligible;
        status := EligibilityUnknown;
        return [StepTo(Ineligible)];
      }
      if ctx.fid.None? {
        step := Ineligible;
        status := OpenInFarcaster;
        return [StepTo(Ineligible)];
      }
      var f := NatToString(ctx.fid.value);
      fid := Some(f);
      username := UsernameOrNull(ctx);
      effects := ClassifyStage(lookup);
      effects := [LookupRecord(f)] + effects;
    }

    /** The part of `init` after the record lookup. */
    method ClassifyStage(lookup: LookupOutcome) returns (effects: seq<Effect>)
      modifies this
      ensures Run(State(), effects) == Classify(old(State()), lookup)
    {
      if lookup.LookupThrew? {
        step := Ineligible;
        status := EligibilityUnknown;
        return [StepTo(Ineligible)];
      }
      if lookup.record.None? {
        step := Eligible;
        status := EligibleToGenerate;
        return [StepTo(Eligible)];
      }
      var r := lookup.record.value;
      hasGenerated := true;
      selectedIndex := r.imageIndex;
      rankColor := r.rarity;
      if r.minted {
        hasMinted := true;
        step := Done;
        status := AlreadyMinted;
        effects := [StepTo(Done)];
      } else {
        step := Generated;
        status := ReadyToMint;
        effects := [StepTo(Generated)];
      }
    }

    /** `canClick(key, ms)` at time `now`: refuse within `ms` of the last accepted click, else record `now`. */
    method CanClick(key: string, ms: int, now: int) returns (ok: bool)
      modifies this
      ensures ok == Debounce(old(lastClick), key, ms, now).allowed
      ensures State() == old(State()).(lastClick := Debounce(old(lastClick), key, ms, now).last)
    {
      var last := if key in lastClick then lastClick[key] else 0;
      if now - last < ms {
        return false;
      }
      lastClick := lastClick[key := now];
      return true;
    }

    /** `generateNFT`, with the drawn index and the insert's outcome given. */
    method GenerateNft(idx: int, insertOk: bool) returns (effects: seq<Effect>)
      requires 0 <= idx < Total
      modifies this
      ensures Run(State(), effects) == Generate(old(State()), idx, insertOk)
    {
      if fid.None? || fid.value == "" {
        toast := Some(FidNotFound);
        return [];
      }
      if isGenerating || isButtonLocked || hasGenerated {
        return [];
      }
      isButtonLocked := true;
      isGenerating := true;
      effects := InsertStage(idx, insertOk);
    }

    /** The insert, its outcome, and the `finally` of `generateNFT`. */
    method InsertStage(idx: int, insertOk: bool) returns (effects: seq<Effect>)
      requires fid.Some? && 0 <= idx < Total
      modifies this
      ensures Run(State(), effects) == Insert(old(State()), idx, insertOk)
    {
      var rank := Rarity.ColourName(Rarity.RarityByRank(idx));
      var insert := InsertRecord(fid.value, idx, rank);
      if insertOk {
        selectedIndex := Some(idx);
        rankColor := Some(rank);
        hasGenerated := true;
        step := Generated;
        status := ReadyToMint;
        toast := Some(GenerateSucceeded);
        effects := [insert, StepTo(Generated)];
      } else {
        toast := Some(SaveFailed);
        effects := [insert];
      }
      isGenerating := false;
    }

    /** `handleGenerateClick`. */
    method HandleGenerateClick(now: int, idx: int, insertOk: bool) returns (effects: seq<Effect>)
      requires 0 <= idx < Total
      modifies this
      ensures Run(State(), effects) == GenerateClick(old(State()), now, idx, insertOk)
    {
      var ok := CanClick("generate", GenerateDebounceMs, now);
      if !ok {
        return [];
      }
      effects := GenerateNft(idx, insertOk);
    }

    /** The 600 ms timer `generateNFT` schedules. */
    method GenerateLockTimer()
      modifies this
      ensures State() == ReleaseGenerateLock(old(State()))
    {
      isButtonLocked := false;
    }

    /** The `catch` of `handleMint`. */
    method Fail(error: MintError) returns (effects: seq<Effect>)
      modifies this
      ensures Run(State(), effects) == MintFailure(old(State()), error)
    {
      toast := Some(MintFailed(error));
      step := Generated;
      effects := [StepTo(Generated)];
      status := MintAgain;
    }

    /** `handleMint`, with the wallet, the upload reply and the contract write given in `e`. */
    method HandleMint(e: MintEnv) returns (effects: seq<Effect>)
      modifies this
      ensures Run(State(), effects) == Mint(old(State()), e)
    {
      if fid.None? || fid.value == "" || selectedIndex.None? {
        toast := Some(NothingToMint);
        return [];
      }
      if isButtonLocked || isMinting {
        return [];
      }
      isButtonLocked := true;
      isMinting := true;
      step := Minting;
      status := PreparingMint;
      var rest: seq<Effect>;
      if !e.isConnected {
        rest := ConnectStage(e);
      } else if Balance(e) < MintPriceWei {
        toast := Some(NeedGas);
        step := Generated;
        rest := [StepTo(Generated)];
      } else {
        status := UploadingMetadata;
        rest := UploadStage(e);
      }
      effects := [StepTo(Minting)] + rest;
    }

    /** The branch of `handleMint` taken without a connected wallet. */
    method ConnectStage(e: MintEnv) returns (effects: seq<Effect>)
      modifies this
      ensures Run(State(), effects) == Connect(old(State()), e)
    {
      if !e.hasConnector {
        effects := Fail(NoConnector);
        return;
      }
      if e.connect.Failed? {
        effects := Fail(Thrown(e.connect.message));
        effects := [ConnectWallet] + effects;
        return;
      }
      toast := Some(WalletConnectedToast);
      step := Generated;
      status := WalletConnected;
      effects := [ConnectWallet, StepTo(Generated)];
    }

    /** The metadata upload of `handleMint`. */
    method UploadStage(e: MintEnv) returns (effects: seq<Effect>)
      requires fid.Some? && selectedIndex.Some?
      modifies this
      ensures Run(State(), effects) == Upload(old(State()), e)
    {
      var doc := Metadata.Build(fid.value, username, e.origin, selectedIndex.value, rankColor);
      if e.upload.Threw? {
        effects := Fail(Thrown(e.upload.message));
      } else if !Present(Field(e.upload.value, "ipfs")) {
        effects := Fail(UploadFailed);
      } else {
        status := MintingOnBase;
        effects := WriteStage(Field(e.upload.value, "ipfs").value, doc, e);
      }
      effects := [UploadMetadata(doc)] + effects;
    }

    /** The contract write and the record update of `handleMint`. */
    method WriteStage(uri: Json, doc: Metadata.Metadata, e: MintEnv) returns (effects: seq<Effect>)
      requires fid.Some?
      modifies this
      ensures Run(State(), effects) == Write(old(State()), uri, doc, e)
    {
      var token := BigIntOf(fid.value);
      if token.None? {
        effects := Fail(NotABigInt(fid.value));
        return;
      }
      if e.write.Failed? {
        effects := Fail(Thrown(e.write.message));
      } else {
        hasMinted := true;
        step := Done;
        status := AlreadyMinted;
        toast := Some(MintSucceeded);
        effects := [UpdateRecord(fid.value, doc), StepTo(Done)];
      }
      effects := [WriteContract(token.value, uri, MintPriceWei)] + effects;
    }

    /** `handleMintClick`. */
    method HandleMintClick(now: int, e: MintEnv) returns (effects: seq<Effect>)
      modifies this
      ensures Run(State(), effects) == MintClick(old(State()), now, e)
    {
      var ok := CanClick("mint", MintDebounceMs, now);
      if !ok {
        return [];
      }
      effects := HandleMint(e);
    }

    /** The 800 ms timer `handleMint` schedules. */
    method MintLockTimer()
      modifies this
      ensures State() == ReleaseMintLocks(old(State()))
    {
      isMinting := false;
      isButtonLocked := false;
    }
  }
}
