/**
 * The Astral client: the GeoDID identifier to CID registry (`docmap`),
 * document pinning, document loading, and attaching pinned assets to items.
 */
module Astral {
  import opened Wrappers
  import opened Store
  import opened Pinning

  /** What `docmap` stores per GeoDID: the token used to pin it and its current CID. */
  datatype InstanceInfo = InstanceInfo(authToken: Option<string>, cid: Cid)

  type DocMap = map<string, InstanceInfo>

  /** An asset offered for attachment (`type` is spelled `kind`, a reserved word in Dafny). */
  datatype Asset = Asset(name: string, kind: string, data: string)

  /** A service reference; `serviceEndpoint` is undefined when staging the asset failed. */
  datatype ServiceEndpoint = ServiceEndpoint(id: string, kind: string, serviceEndpoint: Option<Cid>)

  /** The part of a DID document the client reads: its type and its service list. */
  datatype DidMetadata = DidMetadata(kind: string)

  /** A GeoDID document; `content` stands for every field the client only carries along. */
  datatype DocumentVal = DocumentVal(didmetadata: DidMetadata, service: seq<ServiceEndpoint>, content: string)

  /** A document with its identifier; the value is undefined when resolution failed. */
  datatype DocumentInfo = DocumentInfo(geodidid: string, documentVal: Option<DocumentVal>)

  /** What `pinDocument` reports: the CID is undefined when staging failed. */
  datatype PinInfo = PinInfo(geodidid: string, cid: Option<Cid>, pinDate: int, token: Option<string>)

  datatype LoadInfo = LoadInfo(documentInfo: DocumentInfo, powergateInstance: Powergate)

  /** `JSON.stringify` and `TextEncoder.encode`, kept opaque. */
  datatype Codec = Codec(stringify: Option<DocumentVal> -> string, encodeText: string -> Bytes)

  /** The errors `addAssetsToItem` catches and logs. */
  datatype AttachError = Unresolved | NotAnItem(message: string)

  /** The value of `GeoDidType.Item`. */
  const ITEM := "item"

  const NOT_AN_ITEM_MESSAGE := "Unfortunately the Document ID you provided is not of Item type, so you cannot add any Assets to this Document. Please try again with a valid GeoDID Item"

  /** The bytes `pinDocument` stages for a document value. */
  function Serialize(codec: Codec, v: Option<DocumentVal>): Bytes {
    codec.encodeText(codec.stringify(v))
  }

  /**
   * The token an instance built for a caller's optional `token` ends up with:
   * the caller's when truthy, otherwise the provisioned one, otherwise absent.
   */
  function SessionToken(token: Option<string>, provisioned: Provision): (r: Option<string>)
    ensures Truthy(token) ==> r == token
    ensures !Truthy(token) && provisioned.Created? ==> r == provisioned.userToken
    ensures !Truthy(token) && provisioned.CreationFailed? ==> r == None
  {
    BuildToken(if Truthy(token) then token else None, provisioned)
  }

  /** The requests of staging `data` and, if that produced a CID, pinning it. */
  function PinRequests(data: Bytes, stage: Bytes -> Result<Cid, string>): seq<Request> {
    match stage(data)
    case Success(cid) => [Staging(data), Applying(cid)]
    case Failure(_) => [Staging(data)]
  }

  /** The CID of `data` when it was both staged and pinned, or the error of the failing step. */
  function StageAndPin(data: Bytes, stage: Bytes -> Result<Cid, string>, apply: Cid -> ApplyResult)
    : (r: Result<Cid, string>)
    ensures r.Success? <==> stage(data).Success? && ClassifyPin(apply(stage(data).value)).Pass?
    ensures r.Success? ==> r.value == stage(data).value
  {
    match stage(data)
    case Failure(e) => Failure(e)
    case Success(cid) =>
      match ClassifyPin(apply(cid))
      case Pass => Success(cid)
      case Fail(e) => Failure(e)
  }

  // ---------------------------------------------------------------------
  // The registry

  /**
   * The registry after a successful pin of `id` to `cid` with `token`: a new id
   * gets a fresh entry; a known id gets the new CID and keeps its stored token.
   */
  function Record(m: DocMap, id: string, token: Option<string>, cid: Cid): (r: DocMap)
    ensures r.Keys == m.Keys + {id}
    ensures r[id].cid == cid
    ensures r[id].authToken == if id in m then m[id].authToken else token
    ensures forall k :: k in m && k != id ==> r[k] == m[k]
  {
    if id !in m then m[id := InstanceInfo(token, cid)] else m[id := m[id].(cid := cid)]
  }

  /** The registry after `pinDocument` pinned `data` for `id`: unchanged when a step failed. */
  function PinnedInto(m: DocMap, id: string, token: Option<string>, data: Bytes,
                      stage: Bytes -> Result<Cid, string>, apply: Cid -> ApplyResult): (r: DocMap)
    ensures r == m || (stage(data).Success? && r == Record(m, id, token, stage(data).value))
    ensures StageAndPin(data, stage, apply).Success? ==> r == Record(m, id, token, stage(data).value)
  {
    match StageAndPin(data, stage, apply)
    case Success(cid) => Record(m, id, token, cid)
    case Failure(_) => m
  }

  /** A failed staging or pinning step leaves the registry untouched. */
  lemma FailedPinKeepsRegistry(m: DocMap, id: string, token: Option<string>, data: Bytes,
                               stage: Bytes -> Result<Cid, string>, apply: Cid -> ApplyResult)
    requires stage(data).Failure? || ClassifyPin(apply(stage(data).value)).Fail?
    ensures PinnedInto(m, id, token, data, stage, apply) == m
  {
  }

  /** A new identifier gains exactly one entry, with the given token and CID. */
  lemma RecordNew(m: DocMap, id: string, token: Option<string>, cid: Cid)
    requires id !in m
    ensures Record(m, id, token, cid) == m[id := InstanceInfo(token, cid)]
    ensures |Record(m, id, token, cid)| == |m| + 1
  {
  }

  /** A known identifier keeps its token and the size of the registry is unchanged. */
  lemma RecordExisting(m: DocMap, id: string, token: Option<string>, cid: Cid)
    requires id in m
    ensures Record(m, id, token, cid) == m[id := InstanceInfo(m[id].authToken, cid)]
    ensures |Record(m, id, token, cid)| == |m|
  {
  }

  /** Two pins of one identifier: the CID of the later one, the token of the first. */
  lemma LastWriteWins(m: DocMap, id: string, t1: Option<string>, c1: Cid, t2: Option<string>, c2: Cid)
    ensures Record(Record(m, id, t1, c1), id, t2, c2) == Record(m, id, t1, c2)
  {
  }

  /** Pinning the same CID again leaves the registry as it was. */
  lemma RecordIdempotent(m: DocMap, id: string, t1: Option<string>, t2: Option<string>, cid: Cid)
    ensures Record(Record(m, id, t1, cid), id, t2, cid) == Record(m, id, t1, cid)
  {
  }

  /** Pins of different identifiers do not interfere: their order does not matter. */
  lemma RecordCommutes(m: DocMap, a: string, ta: Option<string>, ca: Cid,
                       b: string, tb: Option<string>, cb: Cid)
    requires a != b
    ensures Record(Record(m, a, ta, ca), b, tb, cb) == Record(Record(m, b, tb, cb), a, ta, ca)
  {
  }

  // ---------------------------------------------------------------------
  // Assets

  /** The reference `pinAsset` builds for `asset` attached to `docId`. */
  function AssetRef(docId: string, asset: Asset, stage: Bytes -> Result<Cid, string>, codec: Codec)
    : (r: ServiceEndpoint)
    ensures r.id == docId + asset.name && r.kind == asset.kind
    ensures r.serviceEndpoint.Some? <==> stage(codec.encodeText(asset.data)).Success?
    ensures r.serviceEndpoint.Some? ==> r.serviceEndpoint.value == stage(codec.encodeText(asset.data)).value
  {
    ServiceEndpoint(docId + asset.name, asset.kind, stage(codec.encodeText(asset.data)).ToOption())
  }

  /** The references for a batch of assets, one per asset, in input order. */
  function AttachedRefs(docId: string, assets: seq<Asset>, stage: Bytes -> Result<Cid, string>, codec: Codec)
    : (r: seq<ServiceEndpoint>)
    ensures |r| == |assets|
    ensures forall k :: 0 <= k < |assets| ==>
      && r[k].id == docId + assets[k].name
      && r[k].kind == assets[k].kind
      && r[k].serviceEndpoint == stage(codec.encodeText(assets[k].data)).ToOption()
  {
    if assets == [] then []
    else [AssetRef(docId, assets[0], stage, codec)] + AttachedRefs(docId, assets[1..], stage, codec)
  }

  /** The requests of pinning a batch of assets one after the other. */
  function BatchRequests(assets: seq<Asset>, stage: Bytes -> Result<Cid, string>, codec: Codec)
    : seq<Request>
    decreases |assets|
  {
    if assets == [] then []
    else
      BatchRequests(assets[..|assets| - 1], stage, codec)
        + PinRequests(codec.encodeText(assets[|assets| - 1].data), stage)
  }

  /** Only items accept assets. */
  predicate IsAttachable(d: DocumentVal) {
    d.didmetadata.kind == ITEM
  }

  /** An item with the references for `assets` appended to its service list. */
  function Attached(d: DocumentVal, docId: string, assets: seq<Asset>,
                    stage: Bytes -> Result<Cid, string>, codec: Codec): (r: DocumentVal)
    ensures r.didmetadata == d.didmetadata && r.content == d.content
    ensures |r.service| == |d.service| + |assets| && r.service[..|d.service|] == d.service
  {
    d.(service := d.service + AttachedRefs(docId, assets, stage, codec))
  }

  /**
   * Attaching keeps the old service list as a prefix, adds one reference per
   * asset in input order, and changes nothing else in the document.
   */
  lemma AttachedAppendsInOrder(d: DocumentVal, docId: string, assets: seq<Asset>,
                                 stage: Bytes -> Result<Cid, string>, codec: Codec)
    ensures var e := Attached(d, docId, assets, stage, codec);
      && e.didmetadata == d.didmetadata && e.content == d.content
      && |e.service| == |d.service| + |assets|
      && e.service[..|d.service|] == d.service
      && forall k :: 0 <= k < |assets| ==> e.service[|d.service| + k] == AssetRef(docId, assets[k], stage, codec)
  {
  }

  /** `refs.forEach(value => service.push(value))`: push each reference in turn. */
  method PushAll(service: seq<ServiceEndpoint>, refs: seq<ServiceEndpoint>)
    returns (out: seq<ServiceEndpoint>)
    ensures out == service + refs
  {
    out := service;
    var j := 0;
    while j < |refs|
      invariant 0 <= j <= |refs|
      invariant out == service + refs[..j]
    {
      out := out + [refs[j]];
      assert refs[..j + 1] == refs[..j] + [refs[j]];
      j := j + 1;
    }
    assert refs[..|refs|] == refs;
  }

  // ---------------------------------------------------------------------
  // The client

  class AstralClient {
    const ethereumAddress: string
    /** GeoDID id to the token and CID of its last successful pin. */
    var docmap: DocMap

    constructor (ethereumAddress: string)
      ensures this.ethereumAddress == ethereumAddress
      ensures docmap == map[]
    {
      this.ethereumAddress := ethereumAddress;
      docmap := map[];
    }

    /** `getPowergateInstance(token)`: build with the token when truthy, else without one. */
    method GetPowergateInstance(token: Option<string>, backend: Backend, provisioned: Provision)
      returns (p: Powergate)
      modifies backend
      ensures fresh(p) && p.Valid() && p.backend == backend
      ensures p.token == SessionToken(token, provisioned)
      ensures backend.requests == old(backend.requests) + BuildRequests(token)
    {
      if Truthy(token) {
        p := Powergate.Build(token, backend, provisioned);
      } else {
        p := Powergate.Build(None, backend, provisioned);
      }
    }

    /**
     * `pinDocument`: stage and pin the serialised document, then record its CID
     * under its id. A failed step skips the registry write; the CID is reported
     * whenever staging succeeded.
     */
    method PinDocument(documentInfo: DocumentInfo, token: Option<string>, backend: Backend,
                       provisioned: Provision, codec: Codec, now: int)
      returns (info: PinInfo)
      modifies this, backend
      ensures var data := Serialize(codec, documentInfo.documentVal);
        info == PinInfo(documentInfo.geodidid, backend.stage(data).ToOption(), now,
                        SessionToken(token, provisioned))
      ensures docmap == PinnedInto(old(docmap), documentInfo.geodidid, info.token,
                                   Serialize(codec, documentInfo.documentVal), backend.stage, backend.apply)
      ensures backend.requests == old(backend.requests) + BuildRequests(token)
                                  + PinRequests(Serialize(codec, documentInfo.documentVal), backend.stage)
    {
      var cid: Option<Cid> := None;
      var powergate: Powergate;
      if Truthy(token) {
        powergate := Powergate.Build(token, backend, provisioned);
      } else {
        powergate := Powergate.Build(None, backend, provisioned);
      }
      var tok := powergate.GetToken();
      var data := Serialize(codec, documentInfo.documentVal);
      var staged := powergate.GetAssetCid(data);
      if staged.Success? {
        cid := Some(staged.value);
        var pinned := powergate.Pin(staged.value);
        if pinned.Pass? {
          if documentInfo.geodidid !in docmap {
            docmap := docmap[documentInfo.geodidid := InstanceInfo(tok, staged.value)];
          } else {
            UpdateMapping(documentInfo.geodidid, staged.value);
          }
        }
      }
      info := PinInfo(documentInfo.geodidid, cid, now, tok);
    }

    /** `updateMapping`: replace the CID stored for `docId`, nothing else. */
    method UpdateMapping(docId: string, newCID: Cid)
      requires docId in docmap
      modifies this
      ensures docmap == old(docmap)[docId := old(docmap)[docId].(cid := newCID)]
    {
      docmap := docmap[docId := docmap[docId].(cid := newCID)];
    }

    /**
     * `pinAsset`: stage and pin the asset's data and return its reference.
     * Staging or pinning errors are swallowed; the endpoint is the staged CID.
     */
    method PinAsset(docId: string, powergate: Powergate, asset: Asset, codec: Codec)
      returns (r: ServiceEndpoint)
      modifies powergate.backend
      ensures r.id == docId + asset.name && r.kind == asset.kind
      ensures r.serviceEndpoint == powergate.backend.stage(codec.encodeText(asset.data)).ToOption()
      ensures powergate.backend.requests
        == old(powergate.backend.requests) + PinRequests(codec.encodeText(asset.data), powergate.backend.stage)
    {
      var seCID: Option<Cid> := None;
      var data := codec.encodeText(asset.data);
      var staged := powergate.GetAssetCid(data);
      if staged.Success? {
        seCID := Some(staged.value);
        var _ := powergate.Pin(staged.value);
      }
      r := ServiceEndpoint(docId + asset.name, asset.kind, seCID);
    }

    /**
     * `loadDocument`: resolve `docId` through the resolver, which reads the
     * registry; the registry itself is not changed.
     */
    method LoadDocument(docId: string, token: Option<string>, backend: Backend, provisioned: Provision,
                        resolve: (DocMap, string) -> Option<DocumentVal>)
      returns (r: LoadInfo)
      modifies backend
      ensures r.documentInfo == DocumentInfo(docId, resolve(docmap, docId))
      ensures fresh(r.powergateInstance) && r.powergateInstance.Valid()
      ensures r.powergateInstance.backend == backend
      ensures r.powergateInstance.token == SessionToken(token, provisioned)
      ensures backend.requests == old(backend.requests) + BuildRequests(token)
    {
      var powergate := GetPowergateInstance(token, backend, provisioned);
      var doc := resolve(docmap, docId);
      r := LoadInfo(DocumentInfo(docId, doc), powergate);
    }

    /**
     * `assets.map(value => this.pinAsset(...))`: pin the assets one after the other,
     * collecting their references in input order.
     */
    method PinAssets(docId: string, powergate: Powergate, assets: seq<Asset>, codec: Codec)
      returns (refs: seq<ServiceEndpoint>)
      modifies powergate.backend
      ensures refs == AttachedRefs(docId, assets, powergate.backend.stage, codec)
      ensures powergate.backend.requests
        == old(powergate.backend.requests) + BatchRequests(assets, powergate.backend.stage, codec)
    {
      var backend := powergate.backend;
      refs := [];
      var i := 0;
      while i < |assets|
        invariant 0 <= i <= |assets|
        invariant |refs| == i
        invariant forall k :: 0 <= k < i ==> refs[k] == AssetRef(docId, assets[k], backend.stage, codec)
        invariant backend.requests == old(backend.requests) + BatchRequests(assets[..i], backend.stage, codec)
      {
        var r := PinAsset(docId, powergate, assets[i], codec);
        assert assets[..i + 1][..i] == assets[..i];
        refs := refs + [r];
        i := i + 1;
      }
      assert assets[..|assets|] == assets;
    }

    /**
     * `addAssetsToItem`: load the document; if it is an item, pin every asset and
     * then append the references in input order. A non-item is returned as loaded,
     * with no asset staged or pinned. The error the source catches is returned in `err`.
     */
    method AddAssetsToItem(docId: string, assets: seq<Asset>, token: Option<string>, backend: Backend,
                           provisioned: Provision, resolve: (DocMap, string) -> Option<DocumentVal>,
                           codec: Codec)
      returns (info: DocumentInfo, err: Option<AttachError>)
      modifies backend
      ensures info.geodidid == docId
      ensures match resolve(docmap, docId)
        case None =>
          && info.documentVal == None && err == Some(Unresolved)
          && backend.requests == old(backend.requests) + BuildRequests(token)
        case Some(d) =>
          if IsAttachable(d) then
            && info.documentVal == Some(Attached(d, docId, assets, backend.stage, codec))
            && err == None
            && backend.requests
               == old(backend.requests) + BuildRequests(token) + BatchRequests(assets, backend.stage, codec)
          else
            && info.documentVal == Some(d)
            && err == Some(NotAnItem(NOT_AN_ITEM_MESSAGE))
            && backend.requests == old(backend.requests) + BuildRequests(token)
    {
      var response := LoadDocument(docId, token, backend, provisioned, resolve);
      info := response.documentInfo;
      err := None;
      match response.documentInfo.documentVal
      case None =>
        err := Some(Unresolved);
      case Some(d) =>
        if d.didmetadata.kind == ITEM {
          var refs := PinAssets(docId, response.powergateInstance, assets, codec);
          var service := PushAll(d.service, refs);
          info := DocumentInfo(docId, Some(d.(service := service)));
        } else {
          err := Some(NotAnItem(NOT_AN_ITEM_MESSAGE));
        }
    }
  }
}
