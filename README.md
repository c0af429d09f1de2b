# GeoDID client bookkeeping

A model of the client side of the Astral GeoDID library: the registry that maps
each GeoDID identifier to the CID its document was last pinned under (`docmap`),
the Powergate adapter that stages bytes, pins CIDs and provisions credentials,
and the pipeline that attaches pinned assets to an item document.

The modules follow the source:

- `Wrappers` (`wrappers.dfy`): `Option`, `Result` and `Outcome`, for undefined
  values and thrown errors.
- `Store` (`store.dfy`): the Powergate node. Its calls `data.stage`,
  `data.get` and `storageConfig.apply` are deterministic oracles held by a
  `Backend` object. The answer to `admin.users.create` is not an oracle: the
  caller passes it in on each call. The object logs every request it receives,
  so that a contract can say which calls an operation made.
- `Pinning` (`powergate.dfy`): the `JobStatus` enum, `String.includes` as
  `Contains`, the classification of pin errors (`ClassifyPin`), JavaScript
  truthiness of a token (`Truthy`), and the `Powergate` class with its `pow`
  client state and token.
- `Astral` (`astral_client.dfy`): the document, asset and service-reference
  records, the registry update (`Record`), and the `AstralClient` class with
  `docmap` as a `map` field.

Behaviour the model keeps from the code:

- The source tests tokens with JavaScript truthiness, so an empty token counts
  as absent. `build("")` with failed user creation keeps `""`, while `build()`
  keeps `undefined`. `pinDocument` and `getPowergateInstance` pass a falsy token
  as no token at all.
- `pinDocument` reports the staged CID even when the pin that follows fails. It
  writes `docmap` only when both steps succeed.
- `pinAsset` swallows its own errors. A failed staging gives a reference whose
  endpoint is undefined.
- `addAssetsToItem` catches every error and returns the document as loaded. The
  model returns the caught error in a second out-parameter, `err`.

The code reports none of these failures to its caller, and the model keeps
that:

- A non-item target passed to `addAssetsToItem` is logged and the document is
  returned as loaded.
- A failed asset pin in `pinAsset` is logged and the reference is still
  appended.
- Staging and pinning errors in `pinDocument` are logged and a pin report is
  still returned.

The source maps the assets to promises it never awaits (astral-client.ts:168)
and pushes those promises onto the service list. The model gives the intended
sequential meaning instead: pin every asset, then append the resolved references
in input order.

## Model

| member | source | states |
|---|---|---|
| `Pinning.Code` | packages/core/src/pin/powergate.ts:11-18 | every status has a value in 0..5 |
| `Pinning.FromCode` | packages/core/src/pin/powergate.ts:11-18 | a value names a status exactly when it is in 0..5, and that status has that value |
| `Pinning.CodeRoundTrip` | packages/core/src/pin/powergate.ts:11-18 | decoding a status's value gives the status back |
| `Pinning.CodeInjective` | packages/core/src/pin/powergate.ts:11-18 | distinct statuses have distinct values |
| `Pinning.OutcomesAreHighCodes` | packages/core/src/pin/powergate.ts:99-105 | the statuses the watcher reacts to (canceled, failed, success) are exactly those with value 3 or more; the watcher compares against the client library's `powTypes.JobStatus`, which the model takes to agree with the local enum |
| `Pinning.ContainsIff` | packages/core/src/pin/powergate.ts:85 | the position-by-position substring test holds exactly when the text occurs at some index |
| `Pinning.ContainsInfix` | packages/core/src/pin/powergate.ts:85 | a message contains every text that appears inside it |
| `Pinning.Contains` | packages/core/src/pin/powergate.ts:85 | `String.includes`: a message contains the empty text, and never a text longer than itself |
| `Pinning.ClassifyPin` | packages/core/src/pin/powergate.ts:80-91 | pin succeeds when apply succeeds; a rejection is swallowed exactly when its message contains the already-pinned text; any other rejection is rethrown with its message unchanged |
| `Pinning.AlreadyPinnedIsSwallowed` | packages/core/src/pin/powergate.ts:84-86 | a rejection that mentions "cid already pinned, consider using override flag" anywhere in its message counts as success |
| `Pinning.OtherRejectionsPropagate` | packages/core/src/pin/powergate.ts:87-89 | a rejection that never mentions the already-pinned text fails with exactly its message |
| `Pinning.Truthy` | packages/core/src/pin/powergate.ts:33 | JavaScript truthiness of an optional token: `undefined` and `""` are falsy, every other string is truthy |
| `Pinning.Powergate.constructor` | packages/core/src/pin/powergate.ts:25-27 | the instance stores exactly the host, client and token it is given |
| `Pinning.BuildToken` | packages/core/src/pin/powergate.ts:29-48 | a truthy supplied token is kept; otherwise the created user's token is used; a failed creation leaves a falsy token and no error |
| `Pinning.Powergate.Build` | packages/core/src/pin/powergate.ts:29-48 | the new instance has host 0.0.0.0:6002, the token of `BuildToken`, and the credential invariant; a user is created only when no truthy token is supplied |
| `Pinning.Powergate.Open` | packages/core/src/pin/powergate.ts:54-60 | a new client for the same host, with the token set on it only when truthy; the instance token is unchanged |
| `Pinning.Powergate.GetToken` | packages/core/src/pin/powergate.ts:62-64 | returns exactly the instance's token |
| `Pinning.Powergate.Close` | packages/core/src/pin/powergate.ts:66-68 | always fails with "Method not implemented." |
| `Pinning.Powergate.GetAssetCid` | packages/core/src/pin/powergate.ts:70-73 | returns exactly the backend's staging answer, after one staging request |
| `Pinning.Powergate.GetGeoDIDDocument` | packages/core/src/pin/powergate.ts:75-78 | returns exactly the backend's bytes for the CID, after one fetch request |
| `Pinning.Powergate.Pin` | packages/core/src/pin/powergate.ts:80-91 | sends one apply request and returns its classification |
| `Astral.SessionToken` | packages/core/src/astral-client.ts:56-67 | a truthy caller token is used; otherwise the provisioned token; when provisioning fails the token is undefined |
| `Astral.StageAndPin` | packages/core/src/astral-client.ts:114-116 | the document's bytes count as pinned exactly when staging succeeded and the pin of the staged CID succeeded |
| `Astral.Record` | packages/core/src/astral-client.ts:118-126 | the id is now mapped to the new CID; its token is the stored one if the id was known, else the given one; every other entry is unchanged and no other key appears |
| `Astral.FailedPinKeepsRegistry` | packages/core/src/astral-client.ts:102-131 | a failed staging or pinning step leaves the registry unchanged |
| `Astral.RecordNew` | packages/core/src/astral-client.ts:118-122 | a new id adds exactly one entry, holding the given token and CID |
| `Astral.RecordExisting` | packages/core/src/astral-client.ts:124-138 | a known id keeps its token, gets the new CID, and the registry keeps its size |
| `Astral.LastWriteWins` | packages/core/src/astral-client.ts:118-138 | after two pins of one id the entry holds the later CID and the first token |
| `Astral.RecordIdempotent` | packages/core/src/astral-client.ts:118-138 | pinning the same CID again leaves the registry as it was |
| `Astral.RecordCommutes` | packages/core/src/astral-client.ts:118-126 | pins of different ids give the same registry in either order |
| `Astral.PinnedInto` | packages/core/src/astral-client.ts:102-131 | the registry after `pinDocument`: `Record` of the old one when the document was staged and pinned, the old one otherwise |
| `Astral.AssetRef` | packages/core/src/astral-client.ts:151-155 | the reference has id docId followed by the asset name, the asset's type, and the CID staging produced (undefined when staging failed) |
| `Astral.IsAttachable` | packages/core/src/astral-client.ts:167 | a document accepts assets exactly when its type is the item type |
| `Astral.Attached` | packages/core/src/astral-client.ts:168-170 | the document with the batch's references appended to its service list, its type and content unchanged |
| `Astral.AttachedRefs` | packages/core/src/astral-client.ts:168 | one reference per asset, in input order, each with id docId followed by the asset name, the asset's type and the staged CID |
| `Astral.AttachedAppendsInOrder` | packages/core/src/astral-client.ts:168-170 | the old service list is kept as a prefix, followed by the reference of each asset in order; the length grows by the number of assets; type and content are unchanged |
| `Astral.AstralClient.constructor` | packages/core/src/astral-client.ts:51-54 | the registry starts empty |
| `Astral.AstralClient.GetPowergateInstance` | packages/core/src/astral-client.ts:56-67 | the instance holds `SessionToken` and the credential invariant; a user is created only for a falsy token |
| `Astral.AstralClient.PinDocument` | packages/core/src/astral-client.ts:96-134 | returns the input id, the staged CID (undefined if staging failed) and the session token. The registry becomes `Record` of the old one when staging and pinning succeeded, and is unchanged otherwise. Exactly the build, stage and (after a successful stage) apply requests are sent |
| `Astral.AstralClient.UpdateMapping` | packages/core/src/astral-client.ts:136-138 | only the CID of `docId` changes; its token and every other entry stay |
| `Astral.AstralClient.PinAsset` | packages/core/src/astral-client.ts:140-156 | the reference has id docId followed by the asset name, the asset's type, and the CID staging the asset's data produced; it sends one stage and, after success, one apply request |
| `Astral.AstralClient.LoadDocument` | packages/core/src/astral-client.ts:184-198 | returns the resolver's document under the requested id and a fresh instance with the session token; the registry is not changed |
| `Astral.PushAll` | packages/core/src/astral-client.ts:170 | pushing the references one by one leaves the old list followed by all references, in order |
| `Astral.AstralClient.PinAssets` | packages/core/src/astral-client.ts:168 | the references are exactly `AttachedRefs` of the assets, in input order, after one stage and at most one apply request per asset, asset by asset |
| `Astral.AstralClient.AddAssetsToItem` | packages/core/src/astral-client.ts:159-181 | an item gets the references of all assets appended in order, after one stage and at most one apply request per asset. A non-item is returned unchanged with the not-an-item error and no asset request. An unresolved document gives the unresolved error |

## Left out

- `createGenesisGeoDID` and `createChildGeoDID` delegate to `Document`, which is not part of this model.
- `waitForJobStatus` is not modelled: its promise never settles and its only call is commented out. Only the statuses it reacts to are modelled (`IsOutcome`).
- Network I/O: the backend's answers are oracles on a `Backend` object. The answer to user creation is passed in per call. The host is a constant.
- Authorisation by the backend: requests do not carry the token, and the oracles do not depend on it.
- `fetch(stage(P)) == P` is a guarantee of the backend: `stage` and `get` are independent oracles, so it is not stated.
- The resolver (`GeoDIDResolver`, `did-resolver`) is a parameter from the registry and the id to an optional document. The store reads it makes are not logged.
- `JSON.stringify` and `TextEncoder` are the opaque functions of a `Codec`.
- `new Date()` becomes the `now` parameter. `console.log` output, the `runTest` harness, the `pow` getter, the unused `endpoint` and `powergate` fields, and the `document` field (used only by the hierarchy methods left out) are left out.
- Concurrency: assets are pinned one after the other, and the pushes of un-awaited promises are modelled as pushes of the resolved references.
- `Astral.AstralClient.UpdateMapping`: requires the id to be in the registry. The source throws a `TypeError` otherwise, which its only caller never triggers.
- `docmap` is a true map: keys inherited from JavaScript's object prototype (such as `constructor`) are not modelled.
- `ITEM` is taken to be `"item"`: the `GeoDidType` enum is not part of this model, and the value comes only from the `'item'` that `runTest` passes (packages/core/src/astral-client.ts:218).
- The watcher's `powTypes.JobStatus` belongs to the client library, which is not part of this model; `OutcomesAreHighCodes` assumes it agrees with the local `JobStatus` enum.
- `Pinning.ClassifyPin`: assumes every rejection carries a message. A rejection without one would make `includes` throw a `TypeError`.
- The contents of the interface declarations in `packages/core/src/geo-did/interfaces/factory-interfaces.ts` are not modelled: they have no behaviour.
