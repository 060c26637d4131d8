/**
 * The generate-then-mint controller of `BasedApolloInner`, as functions on a snapshot of
 * its state. Each handler maps the state before it runs, and the outcomes of the remote
 * calls it makes, to the state after it and the log of what it did, in order: the
 * `setStep` calls and the remote calls (record lookup, insert and update, wallet
 * connection, metadata upload, contract write). A handler runs to completion between two
 * user events; the lock releases it schedules with `setTimeout` are separate events.
 */
module MintFlow {
  import opened Base
  import opened Decimal
  import opened Json
  import Rarity
  import Metadata

  /** `total`: the size of the image pool the index is drawn from. */
  const Total := 1
  /** `parseEther('0.01')` in wei. */
  const MintPriceWei: nat := 10_000_000_000_000_000
  const GenerateDebounceMs := 600
  const MintDebounceMs := 800

  datatype Step = Loading | Eligible | Generated | Minting | Done | Ineligible

  /** The status line under the title. */
  datatype Status =
    | NoStatus | OpenInFarcaster | EligibilityUnknown | EligibleToGenerate | ReadyToMint
    | AlreadyMinted | PreparingMint | WalletConnected | UploadingMetadata | MintingOnBase | MintAgain

  function StatusText(s: Status): string
  {
    match s
    case NoStatus => ""
    case OpenInFarcaster => "Please open the MiniApp inside Farcaster to generate."
    case EligibilityUnknown => "Unable to determine eligibility."
    case EligibleToGenerate => "Eligible. Click \"Generate\" to create your FXBT"
    case ReadyToMint => "Click \"Mint NFT\" to continue."
    case AlreadyMinted => "You already minted this NFT."
    case PreparingMint => "Preparing to mint..."
    case WalletConnected => "Wallet connected. Click \"Mint NFT\" to continue."
    case UploadingMetadata => "Uploading metadata..."
    case MintingOnBase => "Minting on Base..."
    case MintAgain => "Click \"Mint NFT\" to try again."
  }

  /** Why a mint pass was abandoned: the error the `catch` of `handleMint` receives. */
  datatype MintError = NoConnector | UploadFailed | NotABigInt(fid: string) | Thrown(message: string)

  function MintErrorText(e: MintError): string
  {
    match e
    case NoConnector => "No wallet connector available."
    case UploadFailed => "Upload failed."
    case NotABigInt(fid) => "Cannot convert " + fid + " to a BigInt"
    case Thrown(message) => message
  }

  datatype ToastKind = ErrorToast | SuccessToast

  /** The transient notifications. */
  datatype Toast =
    | FidNotFound | GenerateSucceeded | SaveFailed | NothingToMint | WalletConnectedToast
    | NeedGas | MintSucceeded | MintFailed(error: MintError)

  function ToastKindOf(t: Toast): ToastKind
  {
    match t
    case GenerateSucceeded => SuccessToast
    case WalletConnectedToast => SuccessToast
    case MintSucceeded => SuccessToast
    case _ => ErrorToast
  }

  /** The text shown; a mint error with an empty message shows `'Mint failed.'`. */
  function ToastText(t: Toast): string
  {
    match t
    case FidNotFound => "FID not found."
    case GenerateSucceeded => "Farcaster XBT generated successfully."
    case SaveFailed => "Failed to save to Supabase."
    case NothingToMint => "No generated NFT to mint."
    case WalletConnectedToast => "Wallet connected. Click Mint again."
    case NeedGas => "Need gas at least $1 ETH"
    case MintSucceeded => "Mint successful!"
    case MintFailed(e) => Metadata.Or(Some(MintErrorText(e)), "Mint failed.")
  }

  /** The component's state hooks and its click-timestamp map. */
  datatype UiState = UiState(
    step: Step,
    status: Status,
    toast: Option<Toast>,
    fid: Option<string>,
    username: Option<string>,
    selectedIndex: Option<int>,
    rankColor: Option<string>,
    isGenerating: bool,
    hasMinted: bool,
    hasGenerated: bool,
    isButtonLocked: bool,
    isMinting: bool,
    lastClick: map<string, int>)

  /** The state at mount. */
  const Initial := UiState(Loading, NoStatus, None, None, None, None, None, false, false, false, false, false, map[])

  /** One logged action of a handler. */
  datatype Effect =
    | StepTo(step: Step)
    | LookupRecord(fid: string)
    | InsertRecord(fid: string, index: int, rarity: string)
    | ConnectWallet
    | UploadMetadata(doc: Metadata.Metadata)
    | WriteContract(tokenId: nat, uri: Json, valueWei: nat)
    | UpdateRecord(fid: string, doc: Metadata.Metadata)

  datatype Run = Run(state: UiState, effects: seq<Effect>)

  /** A row of the record table as the lookup returns it; its columns may be null. */
  datatype StoredRecord = StoredRecord(imageIndex: Option<int>, rarity: Option<string>, minted: bool)

  /** The Farcaster SDK bootstrap: it threw, or gave a context whose user may lack a fid. */
  datatype SdkOutcome = SdkThrew | SdkContext(fid: Option<nat>, username: Option<string>)

  /** The record lookup: it threw, or returned a row or `null` (which a query error also gives). */
  datatype LookupOutcome = LookupThrew | LookupReturned(record: Option<StoredRecord>)

  datatype CallOutcome = Succeeded | Failed(message: string)

  /**
   * What the mint handler reads from outside: the page origin, the wallet hooks
   * (`isConnected`, a first connector, `connectAsync`, the balance in wei), the parsed reply
   * of `/api/upload`, `writeContractAsync`, and the record update, whose outcome is unused.
   */
  datatype MintEnv = MintEnv(
    origin: string,
    isConnected: bool,
    hasConnector: bool,
    connect: CallOutcome,
    balanceWei: Option<nat>,
    upload: Decoded,
    write: CallOutcome,
    recordUpdated: bool)

  // ---------------------------------------------------------------------------
  // The order of steps

  /** Loading, then the first verdict, then generated, minting, done. */
  function Rank(s: Step): nat
  {
    match s
    case Loading => 0
    case Eligible => 1
    case Ineligible => 1
    case Generated => 2
    case Minting => 3
    case Done => 4
  }

  /** A step change that does not go back, or the one sanctioned way back: a failed or paused mint. */
  predicate Forward(a: Step, b: Step)
  {
    && (Rank(a) <= Rank(b) || (a == Minting && b == Generated))
    && (a == Ineligible ==> b == Ineligible)
    && (b == Ineligible ==> a in {Loading, Ineligible})
  }

  /** The step after the `setStep` calls in `effs`, starting from `from`. */
  function LastStep(from: Step, effs: seq<Effect>): Step
    decreases effs
  {
    if effs == [] then from
    else LastStep(if effs[0].StepTo? then effs[0].step else from, effs[1..])
  }

  /** Every `setStep` in `effs` goes forward from the step before it. */
  predicate StepsForward(from: Step, effs: seq<Effect>)
    decreases effs
  {
    effs == [] ||
    ((effs[0].StepTo? ==> Forward(from, effs[0].step)) &&
     StepsForward(if effs[0].StepTo? then effs[0].step else from, effs[1..]))
  }

  /** The number of record updates to `minted: true` in `effs`. */
  function Finalizations(effs: seq<Effect>): nat
  {
    if effs == [] then 0 else (if effs[0].UpdateRecord? then 1 else 0) + Finalizations(effs[1..])
  }

  /** `r`, with `e` logged before its effects. */
  function After(e: Effect, r: Run): Run
  {
    Run(r.state, [e] + r.effects)
  }

  lemma {:induction false} StepsAppend(from: Step, a: seq<Effect>, b: seq<Effect>)
    ensures LastStep(from, a + b) == LastStep(LastStep(from, a), b)
    ensures StepsForward(from, a + b) <==> StepsForward(from, a) && StepsForward(LastStep(from, a), b)
    decreases a
  {
    if a != [] {
      assert (a + b)[1..] == a[1..] + b;
      StepsAppend(if a[0].StepTo? then a[0].step else from, a[1..], b);
    } else {
      assert a + b == b;
    }
  }

  lemma {:induction false} FinalizationsAppend(a: seq<Effect>, b: seq<Effect>)
    ensures Finalizations(a + b) == Finalizations(a) + Finalizations(b)
  {
    if a != [] {
      assert (a + b)[1..] == a[1..] + b;
      FinalizationsAppend(a[1..], b);
    } else {
      assert a + b == b;
    }
  }

  // ---------------------------------------------------------------------------
  // Session bootstrap (the mount effect)

  /** The hooks `init` never touches. */
  predicate SameControls(a: UiState, b: UiState)
  {
    && a.toast == b.toast && a.isGenerating == b.isGenerating
    && a.isButtonLocked == b.isButtonLocked && a.isMinting == b.isMinting
    && a.lastClick == b.lastClick
  }

  /** The username `init` keeps: `context?.user?.username || null`, so an empty name becomes null. */
  function UsernameOrNull(ctx: SdkOutcome): (u: Option<string>)
    requires ctx.SdkContext?
    ensures u.Some? <==> ctx.username.Some? && ctx.username.value != ""
    ensures u.Some? ==> u == ctx.username
  {
    if ctx.username.Some? && ctx.username.value != "" then ctx.username else None
  }

  /** `init`: classify the session from the SDK context and the stored record. */
  function Bootstrap(s: UiState, ctx: SdkOutcome, lookup: LookupOutcome): Run
  {
    if ctx.SdkThrew? then
      Run(s.(step := Ineligible, status := EligibilityUnknown), [StepTo(Ineligible)])
    else if ctx.fid.None? then
      Run(s.(step := Ineligible, status := OpenInFarcaster), [StepTo(Ineligible)])
    else
      var f := NatToString(ctx.fid.value);
      var known := s.(fid := Some(f), username := UsernameOrNull(ctx));
      After(LookupRecord(f), Classify(known, lookup))
  }

  /** The part of `init` after the lookup: no row means eligible, a row is adopted. */
  function Classify(s: UiState, lookup: LookupOutcome): Run
  {
    if lookup.LookupThrew? then
      Run(s.(step := Ineligible, status := EligibilityUnknown), [StepTo(Ineligible)])
    else if lookup.record.None? then
      Run(s.(step := Eligible, status := EligibleToGenerate), [StepTo(Eligible)])
    else
      var r := lookup.record.value;
      var adopted := s.(hasGenerated := true, selectedIndex := r.imageIndex, rankColor := r.rarity);
      if r.minted then
        Run(adopted.(hasMinted := true, step := Done, status := AlreadyMinted), [StepTo(Done)])
      else
        Run(adopted.(step := Generated, status := ReadyToMint), [StepTo(Generated)])
  }

  // ---------------------------------------------------------------------------
  // Click debounce

  /** `lastClickRef.current[key] || 0`. */
  function LastClick(last: map<string, int>, key: string): int
  {
    if key in last then last[key] else 0
  }

  datatype Debounced = Debounced(allowed: bool, last: map<string, int>)

  /** `canClick(key, ms)` at time `now`. */
  function Debounce(last: map<string, int>, key: string, ms: int, now: int): (d: Debounced)
    ensures d.allowed <==> now - LastClick(last, key) >= ms
    ensures !d.allowed ==> d.last == last
    ensures d.allowed ==> LastClick(d.last, key) == now && d.last.Keys == last.Keys + {key}
    ensures forall k :: k != key ==> LastClick(d.last, k) == LastClick(last, k) && (k in d.last <==> k in last)
  {
    if now - LastClick(last, key) < ms then Debounced(false, last) else Debounced(true, last[key := now])
  }

  // ---------------------------------------------------------------------------
  // Generation

  /** `fid` is truthy: set, and not the empty string. */
  predicate HasFid(s: UiState)
  {
    s.fid.Some? && s.fid.value != ""
  }

  /** `generateNFT` gets past its guards. */
  predicate GenerateProceeds(s: UiState)
  {
    HasFid(s) && !(s.isGenerating || s.isButtonLocked || s.hasGenerated)
  }

  /** `generateNFT` with `idx` for `Math.floor(Math.random() * total)` and the insert's outcome. */
  function Generate(s: UiState, idx: int, insertOk: bool): Run
    requires 0 <= idx < Total
  {
    if !HasFid(s) then
      Run(s.(toast := Some(FidNotFound)), [])
    else if s.isGenerating || s.isButtonLocked || s.hasGenerated then
      Run(s, [])
    else
      Insert(s.(isButtonLocked := true, isGenerating := true), idx, insertOk)
  }

  /**
   * The `try` of `generateNFT`: insert the record with the index and its colour, adopt them
   * only if the insert succeeded; the `finally` clears the generating flag.
   */
  function Insert(g: UiState, idx: int, insertOk: bool): Run
    requires g.fid.Some? && 0 <= idx < Total
  {
    var rank := Rarity.ColourName(Rarity.RarityByRank(idx));
    var insert := InsertRecord(g.fid.value, idx, rank);
    if insertOk then
      Run(g.(selectedIndex := Some(idx), rankColor := Some(rank), hasGenerated := true, step := Generated,
             status := ReadyToMint, toast := Some(GenerateSucceeded), isGenerating := false),
          [insert, StepTo(Generated)])
    else
      Run(g.(toast := Some(SaveFailed), isGenerating := false), [insert])
  }

  /** `handleGenerateClick`: debounce for 600 ms, then `generateNFT`. */
  function GenerateClick(s: UiState, now: int, idx: int, insertOk: bool): Run
    requires 0 <= idx < Total
  {
    var d := Debounce(s.lastClick, "generate", GenerateDebounceMs, now);
    if !d.allowed then Run(s, []) else Generate(s.(lastClick := d.last), idx, insertOk)
  }

  /** The timer at line 319. */
  function ReleaseGenerateLock(s: UiState): UiState
  {
    s.(isButtonLocked := false)
  }

  // ---------------------------------------------------------------------------
  // Minting

  /** `handleMint` gets past its guards. */
  predicate MintProceeds(s: UiState)
  {
    HasFid(s) && s.selectedIndex.Some? && !s.isButtonLocked && !s.isMinting
  }

  /** `Number(balanceData?.formatted || 0)`, in wei. */
  function Balance(e: MintEnv): nat
  {
    if e.balanceWei.Some? then e.balanceWei.value else 0
  }

  /** `res?.ipfs` of the upload reply is truthy. */
  predicate UploadGivesUri(e: MintEnv)
  {
    e.upload.Decoded? && Present(Field(e.upload.value, "ipfs"))
  }

  function MintDocument(s: UiState, origin: string): Metadata.Metadata
    requires s.fid.Some? && s.selectedIndex.Some?
  {
    Metadata.Build(s.fid.value, s.username, origin, s.selectedIndex.value, s.rankColor)
  }

  /** The `catch` of `handleMint`: toast the message, back to `generated`. */
  function MintFailure(m: UiState, error: MintError): Run
  {
    Run(m.(toast := Some(MintFailed(error)), step := Generated, status := MintAgain), [StepTo(Generated)])
  }

  /** The hooks `handleMint` never touches. */
  predicate SameSelection(a: UiState, b: UiState)
  {
    && a.fid == b.fid && a.username == b.username && a.selectedIndex == b.selectedIndex
    && a.rankColor == b.rankColor && a.hasGenerated == b.hasGenerated
    && a.isGenerating == b.isGenerating && a.lastClick == b.lastClick
  }

  /** Past its guards `handleMint` takes both locks and enters `minting`. */
  function Lock(s: UiState): UiState
  {
    s.(isButtonLocked := true, isMinting := true, step := Minting, status := PreparingMint)
  }

  /** `handleMint`. */
  function Mint(s: UiState, e: MintEnv): Run
  {
    if !HasFid(s) || s.selectedIndex.None? then
      Run(s.(toast := Some(NothingToMint)), [])
    else if s.isButtonLocked || s.isMinting then
      Run(s, [])
    else
      After(StepTo(Minting), MintLocked(Lock(s), e))
  }

  /** The `try` block of `handleMint`, from the locked state. */
  function MintLocked(m: UiState, e: MintEnv): Run
    requires m.fid.Some? && m.selectedIndex.Some?
  {
    if !e.isConnected then
      Connect(m, e)
    else if Balance(e) < MintPriceWei then
      Run(m.(toast := Some(NeedGas), step := Generated), [StepTo(Generated)])
    else
      Upload(m.(status := UploadingMetadata), e)
  }

  /** Without a wallet: connect through the first connector and stop. */
  function Connect(m: UiState, e: MintEnv): Run
  {
    if !e.hasConnector then
      MintFailure(m, NoConnector)
    else if e.connect.Failed? then
      After(ConnectWallet, MintFailure(m, Thrown(e.connect.message)))
    else
      Run(m.(toast := Some(WalletConnectedToast), step := Generated, status := WalletConnected),
          [ConnectWallet, StepTo(Generated)])
  }

  /** Build the metadata, post it to `/api/upload` and read `ipfs` from the reply. */
  function Upload(u: UiState, e: MintEnv): Run
    requires u.fid.Some? && u.selectedIndex.Some?
  {
    var doc := MintDocument(u, e.origin);
    After(UploadMetadata(doc),
      if e.upload.Threw? then MintFailure(u, Thrown(e.upload.message))
      else if !Present(Field(e.upload.value, "ipfs")) then MintFailure(u, UploadFailed)
      else Write(u.(status := MintingOnBase), Field(e.upload.value, "ipfs").value, doc, e))
  }

  /** `mintTo(BigInt(fid), uri)` with the price attached, then the record update. */
  function Write(w: UiState, uri: Json, doc: Metadata.Metadata, e: MintEnv): Run
    requires w.fid.Some?
  {
    var token := BigIntOf(w.fid.value);
    if token.None? then
      MintFailure(w, NotABigInt(w.fid.value))
    else
      After(WriteContract(token.value, uri, MintPriceWei),
        if e.write.Failed? then MintFailure(w, Thrown(e.write.message))
        else Run(w.(hasMinted := true, step := Done, status := AlreadyMinted, toast := Some(MintSucceeded)),
                 [UpdateRecord(w.fid.value, doc), StepTo(Done)]))
  }

  /** `handleMintClick`: debounce for 800 ms, then `handleMint`. */
  function MintClick(s: UiState, now: int, e: MintEnv): Run
  {
    var d := Debounce(s.lastClick, "mint", MintDebounceMs, now);
    if !d.allowed then Run(s, []) else Mint(s.(lastClick := d.last), e)
  }

  /** The timer at lines 407-410. */
  function ReleaseMintLocks(s: UiState): UiState
  {
    s.(isMinting := false, isButtonLocked := false)
  }
}
