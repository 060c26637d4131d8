# Farcaster XBT mini app: the generate-then-mint controller and the pinning routes

This project models the core of the Farcaster XBT mini app (repository `0xvans/fxbt`)
and proves what it promises. It has three parts:

- **`BasedApolloInner`** (`components/WardripsGenerator.tsx`), the React component.
  - It classifies a Farcaster session from the SDK context and the stored record.
  - It lets the user generate an image index once, with its rarity colour.
  - It then mints it: connect the wallet, check the balance, build and upload the
    metadata, call `mintTo`, and mark the record minted.
  - Click debouncing and two locks, released on timers, keep handlers from re-entering.
  - Render gates decide which buttons exist.
- **`POST /api/upload`** (`app/api/upload/route.ts`) validates a metadata document and
  picks Pinata credentials. It pins the document and answers with `ipfs://` and gateway
  URLs, or with one of its error replies.
- **`POST /api/checkEligible`** (`app/api/checkEligible/route.ts`) is, despite its name,
  the same pinning pipeline. It has its own messages and no fallback for the pinned name.

Modules:

- `Base`, `Decimal`, `Json`: an `Option` type.
  - JavaScript's decimal rendering of integers and `BigInt` on digit strings.
  - JSON values with truthiness, optional chaining (`x?.key`) and template-literal
    `ToString`.
- `Rarity`: `computeRarityByRank` and its colour names.
- `Metadata`: the metadata literal of `handleMint` and its JSON form.
- `MintFlow`: the controller as functions on a snapshot of its state, `UiState`.
  - Each handler maps the state before it to a `Run`: the state after it, plus the log
    of its `setStep` calls and remote calls, in order.
  - Remote calls are outcome parameters: the SDK context, the record lookup, the insert,
    the wallet connection, the balance, the upload reply and the contract write.
  - `Status` and `Toast` enumerate the fixed messages. `StatusText` and `ToastText` give
    their exact wording.
- `MintFlowLemmas`: what `init`, `generateNFT` and `handleMint` promise, one concern per
  lemma.
- `MiniApp`: the component as a class.
  - Its fields are the state hooks and `lastClickRef`.
  - Its methods perform the setter calls in the source's order, with early returns and
    the `catch` branches.
  - Each method is proved to reach exactly the state and log that `MintFlow` gives.
- `UiSafety`: the render gates and a between-events invariant `Consistent`.
  - User events are clicks on enabled buttons, and lock timers that may fire at any time.
  - Over any sequence of events, the step only moves forward except from `minting` back
    to `generated`, and the record is marked minted at most once.
- `Pinning`, `UploadRoute`, `CheckEligibleRoute`: the two route handlers.
  - Each `POST` is a method over the parsed request body, the credential environment
    and the outcome of the `fetch`.
  - It returns the reply and the request sent to Pinata, if any.
- `Scenarios`: the controller together with the upload route, and the intended path from
  mount to a minted token.

## Model

| member | source | states |
|---|---|---|
| Rarity.RarityByRank | components/WardripsGenerator.tsx:183-188 | ranks below 1000 are purple, [1000,2000) yellow, [2000,3000) blue, all others green, each as an if-and-only-if |
| Rarity.RarityMonotone | components/WardripsGenerator.tsx:183-188 | a higher rank never gets a lower tier |
| Rarity.ColourName | components/WardripsGenerator.tsx:184-187 | the stored colour strings `purple`, `yellow`, `blue` and `green` |
| Decimal.NatToString | components/WardripsGenerator.tsx:208 | for a safe-integer fid, `fid.toString()` is a non-empty digit string with no leading zero unless the fid is 0 |
| Decimal.NatToStringRoundTrip | components/WardripsGenerator.tsx:208 | the digits of `n.toString()` have the value `n` |
| Decimal.IntToString | components/WardripsGenerator.tsx:365 | an integer inside a template literal: a minus sign for negatives, then the digits of `n.toString()` |
| Decimal.ParseInt | components/WardripsGenerator.tsx:365 | reads back exactly the canonical spellings: no leading zero except in `0`, and no `-0` |
| Decimal.CanonicalRoundTrip | components/WardripsGenerator.tsx:208 | a canonical digit string is the `toString()` of its value |
| Decimal.ParseIntCanonical | components/WardripsGenerator.tsx:365 | every string `ParseInt` accepts is the template rendering of the integer it yields, so a parsed number pins its spelling |
| Decimal.IntToStringRoundTrip | components/WardripsGenerator.tsx:365 | an integer in a template literal reads back as itself, sign included |
| Decimal.BigIntOf | components/WardripsGenerator.tsx:390 | `BigInt(fid)` succeeds exactly on digit strings |
| Decimal.BigIntOfNatToString | components/WardripsGenerator.tsx:390 | for a safe-integer fid, the token id is the SDK's fid number: `BigInt(n.toString()) == n` |
| Json.Truthy | app/api/upload/route.ts:8 | JavaScript's ToBoolean on a JSON value: `null`, `false`, `0` and `""` are falsy, everything else truthy |
| Json.ToText | app/api/upload/route.ts:54-55 | JavaScript's ToString inside a template literal: strings as they are, integers in decimal, arrays joined with `,` and null elements empty, objects `[object Object]` |
| Json.Field | app/api/upload/route.ts:8 | `x?.key` is defined exactly on objects holding the key, and then it is that value |
| Metadata.Or | components/WardripsGenerator.tsx:364-370 | `v \|\| fallback` gives the given string when it is non-null and non-empty, and the fallback otherwise |
| Metadata.DisplayName | components/WardripsGenerator.tsx:360 | the username, ` #` and the fid, or `User #` and the fid when the username is null or empty |
| Metadata.ImagePath | components/WardripsGenerator.tsx:365 | `${origin}/images/${selectedIndex + 1}.png` |
| Metadata.ImagePathRoundTrip | components/WardripsGenerator.tsx:365 | the image URL is origin + `/images/` + the 1-based number + `.png`, and that number reads back |
| Metadata.ImageNumberDeterminesPath | components/WardripsGenerator.tsx:365 | a path under `origin` that reads back as number `k` is exactly `ImagePath(origin, k - 1)`: no padded or signed variant passes |
| Metadata.Build | components/WardripsGenerator.tsx:360-371 | name `<username> #<fid>` or `User #<fid>`; the description; image number `selectedIndex + 1`, which by `ImageNumberDeterminesPath` fixes the path `${origin}/images/${selectedIndex + 1}.png`; exactly the three attributes with fallbacks `unknown` and `-`; name and image never empty |
| Metadata.ToJson | components/WardripsGenerator.tsx:360-371 | the JSON document carries the built name and image as strings |
| MintFlow.UsernameOrNull | components/WardripsGenerator.tsx:209 | the kept username is the SDK's when it is set and non-empty, and null otherwise |
| MintFlow.Bootstrap | components/WardripsGenerator.tsx:204-257 | `init` on the SDK outcome and the lookup outcome: the fid and username are kept and the lookup logged, then the row is classified; the `Bootstrap*` lemmas state its outcomes |
| MintFlow.Classify | components/WardripsGenerator.tsx:225-248 | the branch on the looked-up row and the `catch`: a thrown lookup is ineligible, no row eligible, a row is adopted and gives `generated` or `done` |
| MintFlow.HasFid | components/WardripsGenerator.tsx:268 | `fid` is truthy: set and not the empty string, as `!fid` tests it |
| MintFlow.Generate | components/WardripsGenerator.tsx:267-289 | `generateNFT`'s two guards (`!fid` with `HasFid`), then both locks taken before the insert; `GenerateOutcomes` states its outcomes |
| MintFlow.Insert | components/WardripsGenerator.tsx:292-320 | the insert of the drawn index and its colour; success adopts them and moves to `generated`, an insert error only toasts; `isGenerating` is cleared either way |
| MintFlow.GenerateClick | components/WardripsGenerator.tsx:323-326 | `handleGenerateClick`: a refused debounce does nothing, otherwise `generateNFT` runs on the updated click map |
| MintFlow.ReleaseGenerateLock | components/WardripsGenerator.tsx:319 | the 600 ms timer clears `isButtonLocked` only |
| MintFlow.Mint | components/WardripsGenerator.tsx:328-339 | `handleMint`'s two guards (`!fid` with `HasFid`, and a null index), then both locks and `minting` before the `try`; the `Mint*` lemmas state its outcomes |
| MintFlow.MintLocked | components/WardripsGenerator.tsx:340-358 | the `try` from the locked state: connect without a wallet, stop on a short balance, otherwise upload |
| MintFlow.Connect | components/WardripsGenerator.tsx:340-349 | no connector fails, a failed connect fails after the attempt, a connect toasts and returns to `generated` |
| MintFlow.Balance | components/WardripsGenerator.tsx:351 | `balanceData?.formatted \|\| 0` in wei: no balance reads as 0 |
| MintFlow.MintDocument | components/WardripsGenerator.tsx:360-371 | the metadata literal built from the current fid, username, index and colour |
| MintFlow.Upload | components/WardripsGenerator.tsx:358-380 | the document is posted; a thrown reply or a falsy `res?.ipfs` fails, otherwise the write stage runs with that uri |
| MintFlow.Write | components/WardripsGenerator.tsx:382-401 | `BigInt(fid)` failing fails; otherwise `mintTo` is logged, and only a successful write logs the update and reaches `done` |
| MintFlow.MintFailure | components/WardripsGenerator.tsx:402-405 | the `catch`: the failure toast, back to `generated`, the retry status |
| MintFlow.MintClick | components/WardripsGenerator.tsx:414-417 | `handleMintClick`: a refused debounce does nothing, otherwise `handleMint` runs on the updated click map |
| MintFlow.ReleaseMintLocks | components/WardripsGenerator.tsx:407-410 | the 800 ms timer clears `isMinting` and `isButtonLocked` only |
| MintFlow.Debounce | components/WardripsGenerator.tsx:259-265 | refuse exactly when `now - last[key] < ms`, and then the map is unchanged; otherwise `last[key] := now` and no other key changes |
| MiniApp.Generator.CanClick | components/WardripsGenerator.tsx:259-265 | the in-place map update returns and stores what `Debounce` does, and changes nothing else |
| MiniApp.Generator.constructor | components/WardripsGenerator.tsx:146-161 | the hooks start at their `useState` values |
| MintFlowLemmas.BootstrapRouting | components/WardripsGenerator.tsx:211-248 | no fid, an SDK error or a thrown lookup gives `ineligible`; no record gives `eligible`; an unminted record gives `generated`; a minted one gives `done` with `hasMinted`; each as an if-and-only-if |
| MintFlowLemmas.BootstrapAdoptsRecord | components/WardripsGenerator.tsx:227-236 | a stored record's index and colour are adopted as they are and `hasGenerated` is set; otherwise the selection is untouched |
| MintFlowLemmas.ClassifyAdoptsRecord | components/WardripsGenerator.tsx:227-243 | the same for the branch on the looked-up row |
| MintFlowLemmas.BootstrapKeepsFid | components/WardripsGenerator.tsx:208-223 | the fid is kept as its decimal string, which `BigInt` reads back as the SDK's number; an empty username becomes null |
| MintFlowLemmas.BootstrapEffects | components/WardripsGenerator.tsx:225-248 | the only logged remote call is the lookup, made only with a fid, and the step is set exactly once, to the final step |
| MintFlowLemmas.ClassifyEffects | components/WardripsGenerator.tsx:227-243 | after the lookup the step is set exactly once and the toast, locks and click map are untouched |
| MintFlowLemmas.BootstrapKeepsControls | components/WardripsGenerator.tsx:204-257 | the mount effect leaves the toast, both locks and the click map as they were |
| MiniApp.Generator.Init | components/WardripsGenerator.tsx:204-257 | the mount effect's setter sequence reaches the state and log of `Bootstrap` |
| MiniApp.Generator.ClassifyStage | components/WardripsGenerator.tsx:227-248 | the branch on the looked-up row reaches the state and log of `Classify` |
| MintFlowLemmas.GenerateOutcomes | components/WardripsGenerator.tsx:267-321 | no fid: only the toast changes; a held lock, a running generation or an earlier one: nothing at all; otherwise the insert carries the index and its colour, `isGenerating` ends false, and the lock stays held; success adopts index 0, its colour and `generated`; an insert error changes only the toast and the lock |
| MiniApp.Generator.GenerateNft | components/WardripsGenerator.tsx:267-289 | the guards and locks of `generateNFT` reach the state and log of `Generate` |
| MiniApp.Generator.InsertStage | components/WardripsGenerator.tsx:292-320 | the insert, its outcome and the `finally` reach the state and log of `Insert` |
| MiniApp.Generator.HandleGenerateClick | components/WardripsGenerator.tsx:323-326 | debounce `generate` for 600 ms, then `generateNFT` |
| MiniApp.Generator.GenerateLockTimer | components/WardripsGenerator.tsx:319 | the timer releases only the button lock |
| MintFlowLemmas.MintGuards | components/WardripsGenerator.tsx:329-333 | no fid or no index: only the toast changes and no call is made; a held lock: nothing at all |
| MintFlowLemmas.MintHoldsLocks | components/WardripsGenerator.tsx:335-411 | past the guards, both locks stay held for the timer, the log starts with `minting`, and the pass ends in `generated` or `done` |
| MintFlowLemmas.LockedPassHoldsLocks | components/WardripsGenerator.tsx:340-405 | the `try` block run from a locked state keeps both locks and ends in `generated` or `done` |
| MintFlowLemmas.MintConnectsAndStops | components/WardripsGenerator.tsx:340-349 | without a wallet, the pass connects if a connector exists and returns to `generated`, with no upload |
| MintFlowLemmas.MintNeedsBalance | components/WardripsGenerator.tsx:351-356 | a balance below the price returns to `generated` with the gas toast and no upload |
| MintFlowLemmas.MintUploadsFirst | components/WardripsGenerator.tsx:358-378 | a connected, funded pass uploads the controller's document right after entering `minting` |
| MintFlowLemmas.MintNeedsUri | components/WardripsGenerator.tsx:373-380 | an upload reply without a truthy `ipfs` stops before any contract write |
| MintFlowLemmas.MintWritesThenRecords | components/WardripsGenerator.tsx:382-400 | the contract write carries the fid, the uri and the price; the record update and `done` come only after it succeeds |
| MintFlowLemmas.WriteOutcome | components/WardripsGenerator.tsx:382-400 | the write stage calls `mintTo` first; the update and `done` follow only a successful write, and a failed one returns to `generated` |
| MintFlowLemmas.MintIgnoresRecordUpdate | components/WardripsGenerator.tsx:394 | the outcome of the record update changes nothing |
| MintFlowLemmas.MintKeepsSelection | components/WardripsGenerator.tsx:328-412 | `hasMinted` changes only on reaching `done`; fid, username, index, colour, `hasGenerated`, `isGenerating` and the click map never change |
| MintFlowLemmas.WriteKeepsSelection | components/WardripsGenerator.tsx:382-400 | the same for the contract-write stage |
| MintFlowLemmas.UploadKeepsSelection | components/WardripsGenerator.tsx:358-380 | the same for the upload stage |
| MintFlowLemmas.FailureKeepsSelection | components/WardripsGenerator.tsx:402-405 | the `catch` returns to `generated` and keeps the selection and `hasMinted` |
| MintFlow.StatusText | components/WardripsGenerator.tsx:214-405 | the exact status line for each `setStatus` call of `init`, `generateNFT` and `handleMint` |
| MintFlow.ToastKindOf | components/WardripsGenerator.tsx:269-403 | each toast's `type`: the error toasts and the success toasts as the handlers set them |
| MintFlow.ToastText | components/WardripsGenerator.tsx:269-403 | each toast's `msg`, with the failed-mint toast as `err?.message \|\| 'Mint failed.'` |
| MintFlow.MintErrorText | components/WardripsGenerator.tsx:343-403 | the messages of what `handleMint`'s `try` throws: no connector, `Upload failed.`, `BigInt`'s conversion error and a remote call's own message |
| MintFlowLemmas.ToastNeverBlank | components/WardripsGenerator.tsx:48 | no toast text is empty, so `Toast`'s `if (!message) return null` never hides a toast the handlers set at lines 269-403 |
| MiniApp.Generator.HandleMint | components/WardripsGenerator.tsx:328-339 | the guards and locks of `handleMint` reach the state and log of `Mint` |
| MiniApp.Generator.ConnectStage | components/WardripsGenerator.tsx:340-349 | the wallet branch reaches the state and log of `Connect` |
| MiniApp.Generator.UploadStage | components/WardripsGenerator.tsx:358-380 | the upload reaches the state and log of `Upload` |
| MiniApp.Generator.WriteStage | components/WardripsGenerator.tsx:382-400 | the write and the record update reach the state and log of `Write` |
| MiniApp.Generator.Fail | components/WardripsGenerator.tsx:402-405 | the `catch` reaches the state and log of `MintFailure` |
| MiniApp.Generator.HandleMintClick | components/WardripsGenerator.tsx:414-417 | debounce `mint` for 800 ms, then `handleMint` |
| MiniApp.Generator.MintLockTimer | components/WardripsGenerator.tsx:406-411 | the timer releases both mint locks and nothing else |
| UiSafety.GenerateShown | components/WardripsGenerator.tsx:536 | the generate button is rendered exactly in `eligible` |
| UiSafety.GenerateEnabled | components/WardripsGenerator.tsx:536-547 | it is clickable unless generating, generated or locked |
| UiSafety.MintShown | components/WardripsGenerator.tsx:557 | the mint button is rendered in `generated` with an index and no mint yet |
| UiSafety.MintEnabled | components/WardripsGenerator.tsx:557-567 | it is clickable unless minting or locked |
| UiSafety.ShareShown | components/WardripsGenerator.tsx:574 | share and OpenSea appear in `done` or once minted |
| UiSafety.EscapeShown | components/WardripsGenerator.tsx:601 | the link into Farcaster appears exactly in `ineligible` |
| UiSafety.Caption | components/WardripsGenerator.tsx:518-531 | the caption is shown with an index and a non-empty fid, as `<username> #<fid>` or `User #<fid>` |
| UiSafety.CaptionIsMetadataName | components/WardripsGenerator.tsx:518-531 | the caption under the image is the metadata name that gets minted |
| UiSafety.GatesExclusive | components/WardripsGenerator.tsx:536-601 | in a consistent state at most one group of buttons is on screen, and none while loading |
| UiSafety.InitialConsistent | components/WardripsGenerator.tsx:146-161 | the initial state satisfies the invariant |
| UiSafety.BootstrapConsistent | components/WardripsGenerator.tsx:204-257 | the mount effect leaves a consistent state and records no mint |
| UiSafety.FailureSettles | components/WardripsGenerator.tsx:402-405 | the `catch` logs one step back to `generated` and no record update |
| UiSafety.WriteSettles | components/WardripsGenerator.tsx:382-400 | the write stage's steps only go forward, and it logs one record update exactly when it sets `hasMinted` |
| UiSafety.UploadSettles | components/WardripsGenerator.tsx:358-380 | the same for the upload stage |
| UiSafety.ConnectSettles | components/WardripsGenerator.tsx:340-349 | the same for the wallet stage |
| UiSafety.MintSettles | components/WardripsGenerator.tsx:328-412 | the same for a whole mint pass from `generated` |
| UiSafety.GenerateClickSafe | components/WardripsGenerator.tsx:536-541 | a click on the enabled generate button keeps the invariant and logs only forward steps |
| UiSafety.MintClickSafe | components/WardripsGenerator.tsx:557-561 | a click on the enabled mint button keeps the invariant, logs only forward steps or the one way back, and marks minted at most once |
| UiSafety.ApplySafe | components/WardripsGenerator.tsx:536-561 | every enabled click and every timer keeps the invariant |
| UiSafety.RunEventsSafe | components/WardripsGenerator.tsx:145-417 | over any sequence of events: the invariant holds; the only backward step is `minting` to `generated`; the record is marked minted at most once, and never if it already was; `ineligible` is entered only from `loading` and never left |
| UiSafety.SessionMintsAtMostOnce | components/WardripsGenerator.tsx:227-235 | a session from mount marks the record minted at most once, and never when the stored record was minted |
| UiSafety.MintDoubleClickIgnored | components/WardripsGenerator.tsx:414-417 | a second mint click within 800 ms of an accepted one does nothing |
| UiSafety.GenerateDoubleClickIgnored | components/WardripsGenerator.tsx:323-326 | a second generate click within 600 ms of an accepted one does nothing |
| UiSafety.MintLockedUntilTimer | components/WardripsGenerator.tsx:333-338 | until the timer fires, `handleMint` is a no-op after a pass that got past its guards |
| UiSafety.MintRetryEnabled | components/WardripsGenerator.tsx:402-410 | after an enabled mint click that ends in `generated` (a failed or paused pass), the mint button is clickable again once the 800 ms timer fires, and a retry whose wallet, balance, upload and write succeed ends `done` with the record marked minted |
| UiSafety.GenerateOnce | components/WardripsGenerator.tsx:272 | after a successful generation, `generateNFT` does nothing even once the lock is released |
| UiSafety.LockedPassEffects | components/WardripsGenerator.tsx:340-401 | the log of `handleMint`'s `try` depends only on the fid, username, index and colour |
| UiSafety.UploadEffects | components/WardripsGenerator.tsx:358-380 | the same for the upload stage |
| UiSafety.WriteEffects | components/WardripsGenerator.tsx:382-401 | the log of the write stage depends only on the fid |
| UiSafety.MintIgnoresHasMinted | components/WardripsGenerator.tsx:328-333 | `handleMint` behaves the same whatever `hasMinted` is, so only the render gate prevents a second mint |
| Pinning.HasCredentials | app/api/upload/route.ts:12-24 | credentials exist when `PINATA_JWT` is truthy (set and non-empty), or both `PINATA_API_KEY` and `PINATA_SECRET_API_KEY` are |
| Pinning.CredentialHeadersUnique | app/api/upload/route.ts:16-25 | the credentials determine the headers |
| Pinning.SelectHeaders | app/api/upload/route.ts:16-25 | `Content-Type` always; a JWT adds only `Authorization: Bearer`; otherwise key and secret add the two `pinata_*` headers; otherwise none and no upload |
| Pinning.ThrownReply | app/api/upload/route.ts:58-61 | the outer `catch` answers 500 with an error body whose text is the thrown message, or `Unexpected upload error` when that is empty |
| Pinning.ValidBody | app/api/upload/route.ts:8-10 | a body passes when both `metadata?.name` and `metadata?.image` are truthy |
| Pinning.PinnedReply | app/api/upload/route.ts:52-57 | the success reply: status 200, `ipfs://` plus the hash, the gateway prefix plus the hash, and the hash itself |
| Pinning.ReplyJson | app/api/upload/route.ts:9-60 | the `NextResponse.json` body of each reply: `{error}`, `{error, raw}`, `{error, detail}` or `{success, ipfs, gateway, hash}` |
| Pinning.IpfsFieldMeansPinned | app/api/upload/route.ts:52-57 | a route reply has a truthy `ipfs` exactly when it is the success reply |
| Pinning.PinnedUrlsAgree | app/api/upload/route.ts:52-57 | `ipfs` is `ipfs://` plus the hash and `gateway` is the Pinata gateway plus the same hash |
| UploadRoute.Payload | app/api/upload/route.ts:27-30 | the Pinata payload: `pinataMetadata.name` is `metadata.name \|\| 'Wardrips Metadata'` and `pinataContent` is the body unchanged |
| UploadRoute.Post | app/api/upload/route.ts:5-62 | a bad body gets 400 before any credential lookup; no credentials get 500 with no upload; the payload is the body and its own name, so the fallback never fires; non-JSON gets 500 with `raw`; not ok or no `IpfsHash` gets 500 with `detail`; 200 exactly on success with the two URLs |
| CheckEligibleRoute.Payload | app/api/checkEligible/route.ts:30-33 | the same payload with `pinataMetadata.name` taken as it is, with no fallback |
| CheckEligibleRoute.Post | app/api/checkEligible/route.ts:4-74 | the same pipeline with its own messages and `pinataMetadata.name` taken as it is |
| CheckEligibleRoute.TokenBodyRejected | app/api/checkEligible/route.ts:8-10 | a `{token}` body always gets 400 |
| Scenarios.MintDocumentAccepted | app/api/upload/route.ts:8-10 | the controller's document always passes the route's `name`/`image` check |
| Scenarios.MintReadsRouteReply | components/WardripsGenerator.tsx:373-391 | the contract is written with the route's `ipfs://` URI exactly when the route succeeded; any route error ends in `generated` with `Upload failed.` |
| Scenarios.MintThroughUploadRoute | app/api/upload/route.ts:5-62 | with the route answering, Pinata is called exactly when credentials exist, with the controller's document; the pass is done exactly when the route gave 200 and the write succeeded |
| Scenarios.HappyPath | components/WardripsGenerator.tsx:204-412 | mount with fid `n` and no record, generate, wait out the lock, mint: the contract is written with token `n`, and the pass ends `done` |

## Where the code and its description differ

- An insert error is reported as a failure (`Failed to save to Supabase.`); it is not
  read as "already exists". The selection is not adopted, so the session stays
  `eligible` and can try again once the lock is released
  (components/WardripsGenerator.tsx:304, 314-315).
- `handleMint` never checks `hasMinted` (`UiSafety.MintIgnoresHasMinted`). A second mint
  is prevented only by the render gate at line 557, together with `init` sending minted
  records to `done`.
- The outcome of the record update at line 394 is never inspected
  (`MintFlowLemmas.MintIgnoresRecordUpdate`). The UI reaches `done` even when that
  write fails.
- A lookup whose query fails returns no row rather than throwing, so such a session is
  classified `eligible`.
- `/api/checkEligible` is a pinning route. The `{token}` body its only client sends is
  always refused with 400.
- A stored record with a null `image_index` gives `generated` with no index. No mint
  button is then rendered (line 557), and generate is not offered either.

## Left out

- Remote services are outcome parameters, not implementations: the Farcaster SDK,
  Supabase lookup, insert and update, wagmi `connectAsync`, `useBalance` and
  `writeContractAsync`, and the `fetch` calls to `/api/upload` and to Pinata.
- `Math.random()` is the generate index, given in `[0, total)`. `Date.now()` is a
  parameter of the click handlers.
- The 5-second wait, the progress animation and its 300 ms reset are display only and
  are not modelled.
- The lock releases at lines 319 and 407-410 are separate timer events
  (`GenerateLockTimer`, `MintLockTimer`), which may fire at any point.
- Each handler runs to completion between two events. Interleaving at `await` points,
  stale React closures and the `canceled` flag of the mount effect are concurrency
  concerns and are not modelled. For this reason `minting` is never observed between
  events.
- `JSON.stringify` followed by `req.json()` is taken to give back the document. The
  route receives `Metadata.ToJson` of the controller's document.
- JSON numbers are integers only. Fractional numbers are not represented.
- `JSON.parse` of the Pinata text is a given parse result (`Fetched.parsed`). The text
  itself is kept only for the `raw` field.
- Balance: `Number(balanceData?.formatted || 0) < Number('0.01')` is compared in
  integer wei against `parseEther('0.01')`. The floating-point rounding of the source is
  not modelled.
- Decimal.BigIntOf: models `BigInt` only on strings of decimal digits. Whitespace,
  signs and `0x`/`0o`/`0b` prefixes are not modelled; stored fids are always decimal
  digit strings.
- Decimal.IntToString: renders only integers. The exponent forms of `Number#toString`
  for very large numbers are not modelled.
- Decimal.NatToString: SDK fids are taken to be safe integers (below 2^53). Past that
  range a JavaScript Number no longer holds the fid exactly, and from 1e21 on `toString()`
  gives an exponent form such as `1e+21`; the digit-string contract holds for safe-integer
  fids only.
- Decimal.BigIntOfNatToString: for the same reason `BigInt(fid.toString()) == fid` is
  promised for safe-integer fids only; `BigInt` of an exponent form throws, and that
  failure is not modelled.
- `fetchMintedCount`, the minted counter with its `67` fallback, `handleShare`, the
  OpenSea link, the `Toast` and `GeneratingUI` components and all styling are
  presentation only.
- The `GET` handler of app/api/upload/route.ts (lines 64-67) and `console.error` logging are not
  modelled.
- app/api/read/route.ts, app/api/frame/route.ts, lib/api.ts, lib/pinata.ts, app/page.tsx,
  app/layout.tsx and next.config.js are not part of this model.
