/** The encrypt-upload hook (useStorachaEncryptedUpload.js): delegation
    loading that binds a space, then encryption and upload of one file,
    over the state fields `loading`, `error`, `space`, `cid` and `proof`. */
module EncryptedUpload {
  import opened Common
  import opened Sdk

  const AGENT_KEY_NOT_SET := "Agent private key not set in VITE_AGENT_PK"
  const LOAD_ERROR_PREFIX := "Invalid delegation or failed to load space: "
  const UPLOAD_ERROR_PREFIX := "Failed to encrypt and upload file: "

  /** The names bound at the top level of the hook's module, which are all
      that `createStorachaClient` can see besides its own locals: the
      module's imports. */
  const MODULE_SCOPE: set<string> :=
    {"useState", "CarReader", "importDAG", "Client", "StoreMemory", "Signer",
     "createEncryptionClient", "BrowserCryptoAdapter"}

  /** The message of the ReferenceError for an unbound identifier. */
  function NotDefined(name: string): string
  {
    name + " is not defined"
  }

  /** `parseProof(data)`: every block of the CAR archive, in iteration order,
      is collected before `importDAG` sees them. `car` is what
      `CarReader.fromBytes(Buffer.from(data, "base64"))` yields: the blocks
      it iterates, or the error it throws. */
  method ParseProof(car: Result<seq<Block>>, importDag: seq<Block> -> Result<Proof>) returns (r: Result<Proof>)
    ensures car.Failure? ==> r == Failure(car.message)
    ensures car.Success? ==> r == importDag(car.value)
  {
    if car.Failure? {
      return Failure(car.message);
    }
    var all := car.value;
    var blocks: seq<Block> := [];
    var i := 0;
    while i < |all|
      invariant 0 <= i <= |all|
      invariant blocks == all[..i]
    {
      blocks := blocks + [all[i]];
      i := i + 1;
    }
    assert all[..|all|] == all;
    r := importDag(blocks);
  }

  /** What `ParseProof` produces. */
  function ProofFromCar(car: Result<seq<Block>>, importDag: seq<Block> -> Result<Proof>): Result<Proof>
  {
    if car.Failure? then Failure(car.message) else importDag(car.value)
  }

  /** The inputs `createStorachaClient` depends on: the agent key, the names in
      scope where it runs, and what `Signer.parse` and `Client.create` yield. */
  datatype ClientCalls = ClientCalls(agentPk: string, scope: set<string>, signer: Result<Principal>, created: Result<Client>)

  /** `createStorachaClient()`: an empty agent key is rejected before anything
      is constructed; then the signer is parsed; then the options object
      `{ principal, store, serviceConf, receiptsEndpoint }` is built, which
      reads `serviceConf` and `receiptsEndpoint` from the enclosing scope. */
  function CreateStorachaClient(calls: ClientCalls): (r: Result<Client>)
    ensures calls.agentPk == "" ==> r == Failure(AGENT_KEY_NOT_SET)
    ensures calls.agentPk != "" && "serviceConf" !in calls.scope ==> r.Failure?
    ensures r.Success? ==> "serviceConf" in calls.scope && "receiptsEndpoint" in calls.scope && r == calls.created
  {
    if calls.agentPk == "" then Failure(AGENT_KEY_NOT_SET)
    else if calls.signer.Failure? then Failure(calls.signer.message)
    else if "serviceConf" !in calls.scope then Failure(NotDefined("serviceConf"))
    else if "receiptsEndpoint" !in calls.scope then Failure(NotDefined("receiptsEndpoint"))
    else calls.created
  }

  /** As the module is written, client creation never succeeds: neither
      `serviceConf` nor `receiptsEndpoint` is bound where it runs. */
  lemma AsWrittenClientCreationFails(agentPk: string, signer: Result<Principal>, created: Result<Client>)
    ensures CreateStorachaClient(ClientCalls(agentPk, MODULE_SCOPE, signer, created)).Failure?
    ensures agentPk != "" && signer.Success? ==>
      CreateStorachaClient(ClientCalls(agentPk, MODULE_SCOPE, signer, created)) == Failure(NotDefined("serviceConf"))
  {
    assert "serviceConf" !in MODULE_SCOPE;
  }

  /** The foreign outcomes `loadDelegation` meets: the CAR archive, `importDAG`,
      client creation, `client.addSpace(proof)` (the space's DID) and
      `client.setCurrentSpace`. */
  datatype LoadCalls = LoadCalls(
    car: Result<seq<Block>>,
    importDag: seq<Block> -> Result<Proof>,
    client: ClientCalls,
    addSpace: Result<string>,
    setCurrentSpace: Outcome)

  /** `loadDelegation` resolves to the space DID or rejects with the first
      error met. */
  function LoadOutcome(calls: LoadCalls): Result<string>
  {
    match ProofFromCar(calls.car, calls.importDag)
    case Failure(e) => Failure(e)
    case Success(_) =>
      match CreateStorachaClient(calls.client)
      case Failure(e) => Failure(e)
      case Success(_) =>
        match calls.addSpace
        case Failure(e) => Failure(e)
        case Success(did) =>
          if calls.setCurrentSpace.Fail? then Failure(calls.setCurrentSpace.message) else Success(did)
  }

  /** The foreign outcomes `encryptAndUpload` meets: client creation,
      `client.setCurrentSpace(space)`, `createEncryptionClient` and
      `uploadEncryptedFile(file)`. */
  datatype UploadCalls = UploadCalls(
    client: ClientCalls,
    setCurrentSpace: Outcome,
    createEncryptionClient: Outcome,
    uploadEncryptedFile: Result<Link>)

  /** `link.cid || link`: the `cid` property when it is truthy, otherwise the
      link itself, which as an object is always truthy. */
  function CidOf(link: Link): (cid: string)
    ensures cid != ""
    ensures cid == link.text || link.cidProperty == Some(cid)
    ensures link.cidProperty.Some? && link.cidProperty.value != "" ==> cid == link.cidProperty.value
  {
    if link.cidProperty.Some? && link.cidProperty.value != "" then link.cidProperty.value else link.text
  }

  /** `encryptAndUpload` resolves to the CID or rejects with the first error. */
  function UploadOutcome(calls: UploadCalls): (r: Result<string>)
    ensures r.Success? ==> calls.uploadEncryptedFile.Success? && r.value == CidOf(calls.uploadEncryptedFile.value)
    ensures r.Success? ==> r.value != ""
  {
    match CreateStorachaClient(calls.client)
    case Failure(e) => Failure(e)
    case Success(_) =>
      if calls.setCurrentSpace.Fail? then Failure(calls.setCurrentSpace.message)
      else if calls.createEncryptionClient.Fail? then Failure(calls.createEncryptionClient.message)
      else match calls.uploadEncryptedFile
        case Failure(e) => Failure(e)
        case Success(link) => Success(CidOf(link))
  }

  /** Neither operation can succeed while client creation runs in the module
      as written. */
  lemma AsWrittenOperationsFail(load: LoadCalls, upload: UploadCalls)
    requires load.client.scope == MODULE_SCOPE && upload.client.scope == MODULE_SCOPE
    ensures LoadOutcome(load).Failure?
    ensures UploadOutcome(upload).Failure?
  {
    AsWrittenClientCreationFails(load.client.agentPk, load.client.signer, load.client.created);
    AsWrittenClientCreationFails(upload.client.agentPk, upload.client.signer, upload.client.created);
  }

  /** The hook's state. */
  class EncryptedUploadHook {
    var loading: bool
    var error: string
    /** The bound space's DID, `null` until a delegation loads. */
    var space: Option<string>
    var cid: string
    var proof: Option<Proof>

    constructor ()
      ensures !loading && error == "" && space.None? && cid == "" && proof.None?
    {
      loading := false;
      error := "";
      space := None;
      cid := "";
      proof := None;
    }

    method SetError(e: string)
      modifies this
      ensures error == e
      ensures loading == old(loading) && space == old(space) && cid == old(cid) && proof == old(proof)
    {
      error := e;
    }

    method SetCid(c: string)
      modifies this
      ensures cid == c
      ensures loading == old(loading) && error == old(error) && space == old(space) && proof == old(proof)
    {
      cid := c;
    }

    method SetSpace(s: Option<string>)
      modifies this
      ensures space == s
      ensures loading == old(loading) && error == old(error) && cid == old(cid) && proof == old(proof)
    {
      space := s;
    }

    /** `loadDelegation(delegation)`, where `calls.car` is what decoding
        `delegation` yields: on success `space` is the bound space's DID and the
        same DID is returned; on failure the prefixed error is set, the error
        is rethrown and `space` is unchanged; loading is false afterwards. */
    method LoadDelegation(delegation: string, calls: LoadCalls) returns (r: Result<string>)
      modifies this
      ensures r == LoadOutcome(calls)
      ensures r.Success? ==> space == Some(r.value) && error == ""
      ensures r.Failure? ==> space == old(space) && error == LOAD_ERROR_PREFIX + r.message
      ensures proof == (if ProofFromCar(calls.car, calls.importDag).Success?
                        then Some(ProofFromCar(calls.car, calls.importDag).value) else old(proof))
      ensures !loading && cid == old(cid)
    {
      loading := true;
      error := "";
      var parsed := ParseProof(calls.car, calls.importDag);
      if parsed.Failure? {
        error := LOAD_ERROR_PREFIX + parsed.message;
        loading := false;
        return Failure(parsed.message);
      }
      proof := Some(parsed.value);
      var client := CreateStorachaClient(calls.client);
      if client.Failure? {
        error := LOAD_ERROR_PREFIX + client.message;
        loading := false;
        return Failure(client.message);
      }
      if calls.addSpace.Failure? {
        error := LOAD_ERROR_PREFIX + calls.addSpace.message;
        loading := false;
        return Failure(calls.addSpace.message);
      }
      var did := calls.addSpace.value;
      if calls.setCurrentSpace.Fail? {
        error := LOAD_ERROR_PREFIX + calls.setCurrentSpace.message;
        loading := false;
        return Failure(calls.setCurrentSpace.message);
      }
      space := Some(did);
      loading := false;
      r := Success(did);
    }

    /** `encryptAndUpload(file)`: clears `error` and `cid`; on success `cid` is
        the link's CID and the same value is returned; on failure the prefixed
        error is set, the error is rethrown and `cid` stays empty; loading is
        false afterwards. */
    method EncryptAndUpload(file: Option<File>, calls: UploadCalls) returns (r: Result<string>)
      modifies this
      ensures r == UploadOutcome(calls)
      ensures r.Success? ==> cid == r.value && error == ""
      ensures r.Failure? ==> cid == "" && error == UPLOAD_ERROR_PREFIX + r.message
      ensures calls.uploadEncryptedFile.Success? && r.Success? ==> cid == CidOf(calls.uploadEncryptedFile.value)
      ensures !loading && space == old(space) && proof == old(proof)
    {
      loading := true;
      error := "";
      cid := "";
      var client := CreateStorachaClient(calls.client);
      if client.Failure? {
        error := UPLOAD_ERROR_PREFIX + client.message;
        loading := false;
        return Failure(client.message);
      }
      if calls.setCurrentSpace.Fail? {
        error := UPLOAD_ERROR_PREFIX + calls.setCurrentSpace.message;
        loading := false;
        return Failure(calls.setCurrentSpace.message);
      }
      if calls.createEncryptionClient.Fail? {
        error := UPLOAD_ERROR_PREFIX + calls.createEncryptionClient.message;
        loading := false;
        return Failure(calls.createEncryptionClient.message);
      }
      if calls.uploadEncryptedFile.Failure? {
        error := UPLOAD_ERROR_PREFIX + calls.uploadEncryptedFile.message;
        loading := false;
        return Failure(calls.uploadEncryptedFile.message);
      }
      var link := calls.uploadEncryptedFile.value;
      cid := CidOf(link);
      loading := false;
      r := Success(CidOf(link));
    }
  }
}
