/** The decrypt-download hook (useStorachaDecryptedDownload.js): a lazily
    created, cached Storacha client, delegation loading, and decryption with
    the text-or-download classification of what comes back. */
module DecryptedDownload {
  import opened Common
  import opened Sdk
  import opened Js

  const STORAGE_SERVICE_DID := "did:web:web3.storage"
  const NO_PROOF_DATA := "No proof data provided"
  const AGENT_KEY_NOT_SET := "Agent private key not set in VITE_AGENT_PK"
  const LOAD_ERROR_PREFIX := "Invalid delegation or failed to load proof: "
  const DECRYPT_ERROR_PREFIX := "Failed to decrypt file: "
  const UNKNOWN_RESULT_ERROR := "Unknown file format or decryption result"
  /** Decoded text this long or longer is offered as a download. */
  const INLINE_TEXT_LIMIT := 10000
  const TEXT_MIME_PREFIX := "text/"

  // ----- Content sniffing -----

  /** A member of the character class `[\x20-\x7E\r\n\t]`. */
  predicate InPrintableClass(c: char)
  {
    (' ' <= c <= '~') || c == '\r' || c == '\n' || c == '\t'
  }

  /** The pattern `^[\x20-\x7E\r\n\t]+$` matched from position `i`, where
      `matchedOne` records whether the `+` has consumed a character yet; without
      the `m` flag `$` matches only at the very end of the input. */
  predicate MatchesFrom(text: string, i: nat, matchedOne: bool)
    requires i <= |text|
    decreases |text| - i
  {
    if i == |text| then matchedOne
    else InPrintableClass(text[i]) && MatchesFrom(text, i + 1, true)
  }

  /** `/^[\x20-\x7E\r\n\t]+$/.test(text)` */
  predicate PrintableRegexTest(text: string)
  {
    MatchesFrom(text, 0, false)
  }

  /** The regular expression accepts exactly the non-empty strings made of
      class characters. */
  lemma {:induction false} MatchesFromIff(text: string, i: nat, matchedOne: bool)
    requires i <= |text|
    ensures MatchesFrom(text, i, matchedOne) <==>
      (matchedOne || i < |text|) && forall j :: i <= j < |text| ==> InPrintableClass(text[j])
    decreases |text| - i
  {
    if i < |text| {
      MatchesFromIff(text, i + 1, true);
    }
  }

  /** The inline-display test applied to decoded text. */
  predicate ShowsInline(text: string)
  {
    PrintableRegexTest(text) && |text| < INLINE_TEXT_LIMIT
  }

  /** Text is shown inline iff it is non-empty, shorter than 10000 characters,
      and every character is printable ASCII, CR, LF or TAB. */
  lemma ShowsInlineIff(text: string)
    ensures ShowsInline(text) <==>
      && 0 < |text| < INLINE_TEXT_LIMIT
      && forall j :: 0 <= j < |text| ==> InPrintableClass(text[j])
  {
    MatchesFromIff(text, 0, false);
  }

  /** For printable text the length alone decides: 9999 characters are shown,
      10000 are not. */
  lemma InlineLengthBoundary(text: string)
    requires forall j :: 0 <= j < |text| ==> InPrintableClass(text[j])
    ensures ShowsInline(text) <==> 0 < |text| <= 9999
  {
    ShowsInlineIff(text);
  }

  /** One character outside the printable class makes a text binary. */
  lemma NotInlineAt(text: string, j: int)
    requires 0 <= j < |text| && !InPrintableClass(text[j])
    ensures !ShowsInline(text)
  {
    ShowsInlineIff(text);
  }

  /** A greeting with a trailing newline is text; a NUL makes anything binary,
      and so does an escape, a DEL or a character beyond ASCII. */
  lemma SniffingExamples(text: string)
    ensures ShowsInline("Hello, world!\n")
    ensures '\0' in text ==> !ShowsInline(text)
    ensures !ShowsInline("colour \U{1B}[31m") && !ShowsInline("rub\U{7F}out") && !ShowsInline("caf\U{E9}")
  {
    ShowsInlineIff("Hello, world!\n");
    NotInlineAt("colour \U{1B}[31m", 7);
    NotInlineAt("rub\U{7F}out", 3);
    NotInlineAt("caf\U{E9}", 3);
    if '\0' in text {
      var j :| 0 <= j < |text| && text[j] == '\0';
      NotInlineAt(text, j);
    }
  }

  /** `URL.createObjectURL` of a blob with these bytes. */
  datatype Url = ObjectUrl(blob: seq<byte>)

  /** What `retrieveAndDecryptFile` resolves to: a Blob (with what `.text()`
      decodes it to), a Uint8Array (with what `TextDecoder` decodes it to), an
      object with `content` and `fileType` (`""` when absent, with what
      `content.text()` gives), or anything else. */
  datatype Retrieved =
    | BlobResult(bytes: seq<byte>, text: string)
    | BytesResult(bytes: seq<byte>, text: string)
    | ContentResult(content: seq<byte>, fileType: string, contentText: string)
    | UnrecognisedResult

  /** Where a decryption result ends up. */
  datatype Display = ShowText(text: string) | ShowUrl(url: Url) | ShowError(message: string)

  /** The branch ladder of `decryptFile` on the decrypted result. */
  function Classify(result: Retrieved): (d: Display)
    ensures (result.BlobResult? || result.BytesResult?) ==>
      (d.ShowText? <==>
        && 0 < |result.text| < INLINE_TEXT_LIMIT
        && forall j :: 0 <= j < |result.text| ==> InPrintableClass(result.text[j]))
    ensures (result.BlobResult? || result.BytesResult?) ==>
      d == ShowText(result.text) || d == ShowUrl(ObjectUrl(result.bytes))
    ensures result.ContentResult? ==>
      (d.ShowText? <==> StartsWith(result.fileType, TEXT_MIME_PREFIX))
    ensures result.ContentResult? ==>
      d == ShowText(result.contentText) || d == ShowUrl(ObjectUrl(result.content))
    ensures d.ShowError? <==> result.UnrecognisedResult?
    ensures d.ShowError? ==> d.message == UNKNOWN_RESULT_ERROR
  {
    match result
    case BlobResult(bytes, text) =>
      ShowsInlineIff(text);
      if ShowsInline(text) then ShowText(text) else ShowUrl(ObjectUrl(bytes))
    case BytesResult(bytes, text) =>
      ShowsInlineIff(text);
      if ShowsInline(text) then ShowText(text) else ShowUrl(ObjectUrl(bytes))
    case ContentResult(content, fileType, contentText) =>
      if fileType != "" && StartsWith(fileType, TEXT_MIME_PREFIX) then ShowText(contentText)
      else ShowUrl(ObjectUrl(content))
    case UnrecognisedResult =>
      ShowError(UNKNOWN_RESULT_ERROR)
  }

  // ----- The hook's operations as functions of their inputs -----

  /** `parseProof(data)`: missing or empty data is rejected before the proof
      library (whose outcome is `parsed`) is consulted. */
  function ParseProof(data: string, parsed: Result<Proof>): (r: Result<Proof>)
    ensures data == "" ==> r == Failure(NO_PROOF_DATA)
    ensures data != "" ==> r == parsed
  {
    if data == "" then Failure(NO_PROOF_DATA) else parsed
  }

  /** `getOrCreateStorachaClient()` given the cache: the cached client if there
      is one; otherwise an error for an empty agent key, and otherwise what
      `Signer.parse` and `Client.create` produce (`created`). */
  function ObtainClient(cached: Option<Client>, agentPk: string, created: Result<Client>): Result<Client>
  {
    if cached.Some? then Success(cached.value)
    else if agentPk == "" then Failure(AGENT_KEY_NOT_SET)
    else created
  }

  /** The cache after an attempt to obtain a client. */
  function CacheAfter(cached: Option<Client>, obtained: Result<Client>): Option<Client>
  {
    if obtained.Success? then Some(obtained.value) else cached
  }

  /** The cache only ever gains a client, and once it holds one it keeps it. */
  lemma CacheIsStable(cached: Option<Client>, agentPk: string, created: Result<Client>)
    ensures cached.Some? ==>
      CacheAfter(cached, ObtainClient(cached, agentPk, created)) == cached
    ensures ObtainClient(cached, agentPk, created).Success? ==>
      CacheAfter(cached, ObtainClient(cached, agentPk, created)) == Some(ObtainClient(cached, agentPk, created).value)
    ensures cached.None? && agentPk == "" ==>
      ObtainClient(cached, agentPk, created) == Failure(AGENT_KEY_NOT_SET)
  {
  }

  /** The foreign outcomes `loadDelegation` meets. */
  datatype LoadCalls = LoadCalls(parsed: Result<Proof>, agentPk: string, created: Result<Client>, addProof: Outcome)

  /** `loadDelegation` resolves, or rejects with the first error met. */
  function LoadOutcome(cached: Option<Client>, delegation: string, calls: LoadCalls): Outcome
  {
    match ParseProof(delegation, calls.parsed)
    case Failure(e) => Fail(e)
    case Success(_) =>
      match ObtainClient(cached, calls.agentPk, calls.created)
      case Failure(e) => Fail(e)
      case Success(_) => calls.addProof
  }

  /** The foreign calls `decryptFile` makes: client creation, the encryption
      client factory (given the Storacha client and the two arguments it
      forwards), and retrieval-and-decryption by CID. */
  datatype DecryptCalls = DecryptCalls(
    agentPk: string,
    created: Result<Client>,
    createEncryptionClient: (Client, JsArg, JsArg) -> Result<EncryptionClient>,
    retrieveAndDecryptFile: (EncryptionClient, JsArg) -> Result<Retrieved>)

  /** What the `try` block of `decryptFile` obtains before it classifies. */
  function Retrieve(cached: Option<Client>, calls: DecryptCalls, cid: JsArg, litClient: JsArg, sessionSigs: JsArg): Result<Retrieved>
  {
    match ObtainClient(cached, calls.agentPk, calls.created)
    case Failure(e) => Failure(e)
    case Success(client) =>
      match calls.createEncryptionClient(client, litClient, sessionSigs)
      case Failure(e) => Failure(e)
      case Success(encryptedClient) => calls.retrieveAndDecryptFile(encryptedClient, cid)
  }

  /** The error, URL and content fields. */
  datatype View = View(error: ErrorValue, decryptedUrl: Option<Url>, decryptedContent: string)

  /** The three fields after `decryptFile`, given what retrieval produced. */
  function ViewAfterDecrypt(retrieved: Result<Retrieved>): View
  {
    match retrieved
    case Failure(e) => View(ErrorText(DECRYPT_ERROR_PREFIX + e), None, "")
    case Success(result) =>
      match Classify(result)
      case ShowText(t) => View(ErrorText(""), None, t)
      case ShowUrl(u) => View(ErrorText(""), Some(u), "")
      case ShowError(e) => View(ErrorText(e), None, "")
  }

  /** After `decryptFile` at most one of content and URL is set; an error
      leaves both empty; and the error is the prefixed failure, the unknown
      format message, or nothing. */
  lemma {:induction false} DecryptViewShape(retrieved: Result<Retrieved>)
    ensures var v := ViewAfterDecrypt(retrieved);
      && !(v.decryptedUrl.Some? && v.decryptedContent != "")
      && (ErrorShown(v.error) ==> v.decryptedUrl.None? && v.decryptedContent == "")
      && (retrieved.Failure? ==> v.error == ErrorText(DECRYPT_ERROR_PREFIX + retrieved.message))
      && (retrieved.Success? ==> v.error == ErrorText("") || v.error == ErrorText(UNKNOWN_RESULT_ERROR))
  {
    if retrieved.Success? {
      match Classify(retrieved.value)
      case ShowText(t) =>
      case ShowUrl(u) =>
      case ShowError(e) =>
    }
  }

  /** Decoded text lands in the content field exactly when the sniffer
      accepts it, and otherwise only a URL to the bytes is set. */
  lemma DecodedTextPlacement(bytes: seq<byte>, text: string)
    ensures var v := ViewAfterDecrypt(Success(BlobResult(bytes, text)));
      && (v.decryptedContent == text && v.decryptedUrl.None? <==> ShowsInline(text))
      && (!ShowsInline(text) <==> v.decryptedUrl == Some(ObjectUrl(bytes)) && v.decryptedContent == "")
      && v.error == ErrorText("")
  {
    ShowsInlineIff(text);
  }

  /** The hook's state. */
  class DecryptedDownloadHook {
    var loading: bool
    var error: ErrorValue
    var decryptedUrl: Option<Url>
    var decryptedContent: string
    /** `clientRef.current` */
    var clientRef: Option<Client>
    var proof: Option<Proof>

    constructor ()
      ensures !loading && error == ErrorText("") && decryptedUrl.None? && decryptedContent == ""
      ensures clientRef.None? && proof.None?
    {
      loading := false;
      error := ErrorText("");
      decryptedUrl := None;
      decryptedContent := "";
      clientRef := None;
      proof := None;
    }

    method SetError(e: ErrorValue)
      modifies this
      ensures error == e
      ensures loading == old(loading) && decryptedUrl == old(decryptedUrl) && decryptedContent == old(decryptedContent)
      ensures clientRef == old(clientRef) && proof == old(proof)
    {
      error := e;
    }

    method SetDecryptedUrl(u: Option<Url>)
      modifies this
      ensures decryptedUrl == u
      ensures loading == old(loading) && error == old(error) && decryptedContent == old(decryptedContent)
      ensures clientRef == old(clientRef) && proof == old(proof)
    {
      decryptedUrl := u;
    }

    method SetDecryptedContent(c: string)
      modifies this
      ensures decryptedContent == c
      ensures loading == old(loading) && error == old(error) && decryptedUrl == old(decryptedUrl)
      ensures clientRef == old(clientRef) && proof == old(proof)
    {
      decryptedContent := c;
    }

    /** `getOrCreateStorachaClient()`: returns the cached client once there is
        one, rejects an empty agent key before creating anything, and caches
        the client it creates. */
    method GetOrCreateStorachaClient(agentPk: string, created: Result<Client>) returns (r: Result<Client>)
      modifies this
      ensures r == ObtainClient(old(clientRef), agentPk, created)
      ensures clientRef == CacheAfter(old(clientRef), r)
      ensures old(clientRef).Some? ==> r == Success(old(clientRef).value) && clientRef == old(clientRef)
      ensures loading == old(loading) && error == old(error) && proof == old(proof)
      ensures decryptedUrl == old(decryptedUrl) && decryptedContent == old(decryptedContent)
    {
      if clientRef.Some? {
        return Success(clientRef.value);
      }
      if agentPk == "" {
        return Failure(AGENT_KEY_NOT_SET);
      }
      r := created;
      if r.Success? {
        clientRef := Some(r.value);
      }
    }

    /** `loadDelegation(delegation)`: clears the error, parses and records the
        proof, obtains the client and adds the proof to it; a failure sets the
        prefixed error and is rethrown; loading is false afterwards either way. */
    method LoadDelegation(delegation: string, calls: LoadCalls) returns (r: Outcome)
      modifies this
      ensures r == LoadOutcome(old(clientRef), delegation, calls)
      ensures !loading
      ensures error == ErrorText(if r.Fail? then LOAD_ERROR_PREFIX + r.message else "")
      ensures proof == (if ParseProof(delegation, calls.parsed).Success?
                        then Some(ParseProof(delegation, calls.parsed).value) else old(proof))
      ensures clientRef == (if ParseProof(delegation, calls.parsed).Success?
                            then CacheAfter(old(clientRef), ObtainClient(old(clientRef), calls.agentPk, calls.created))
                            else old(clientRef))
      ensures decryptedUrl == old(decryptedUrl) && decryptedContent == old(decryptedContent)
    {
      loading := true;
      error := ErrorText("");
      var parsed := ParseProof(delegation, calls.parsed);
      if parsed.Failure? {
        error := ErrorText(LOAD_ERROR_PREFIX + parsed.message);
        loading := false;
        return Fail(parsed.message);
      }
      proof := Some(parsed.value);
      var client := GetOrCreateStorachaClient(calls.agentPk, calls.created);
      if client.Failure? {
        error := ErrorText(LOAD_ERROR_PREFIX + client.message);
        loading := false;
        return Fail(client.message);
      }
      if calls.addProof.Fail? {
        error := ErrorText(LOAD_ERROR_PREFIX + calls.addProof.message);
        loading := false;
        return calls.addProof;
      }
      loading := false;
      r := Pass;
    }

    /** `decryptFile(cid, litClient, sessionSigs)`: clears error, URL and
        content, retrieves and decrypts, then shows the result as text, as a
        download URL, or as the unknown-format error; a failure sets the
        prefixed error and is rethrown; loading is false afterwards either way. */
    method DecryptFile(cid: JsArg, litClient: JsArg, sessionSigs: JsArg, calls: DecryptCalls) returns (r: Outcome)
      modifies this
      ensures var retrieved := Retrieve(old(clientRef), calls, cid, litClient, sessionSigs);
        && View(error, decryptedUrl, decryptedContent) == ViewAfterDecrypt(retrieved)
        && r == (if retrieved.Failure? then Fail(retrieved.message) else Pass)
      ensures !(decryptedUrl.Some? && decryptedContent != "")
      ensures !loading
      ensures clientRef == CacheAfter(old(clientRef), ObtainClient(old(clientRef), calls.agentPk, calls.created))
      ensures proof == old(proof)
    {
      loading := true;
      error := ErrorText("");
      decryptedUrl := None;
      decryptedContent := "";
      var client := GetOrCreateStorachaClient(calls.agentPk, calls.created);
      if client.Failure? {
        error := ErrorText(DECRYPT_ERROR_PREFIX + client.message);
        loading := false;
        DecryptViewShape(Failure(client.message));
        return Fail(client.message);
      }
      var encryptedClient := calls.createEncryptionClient(client.value, litClient, sessionSigs);
      if encryptedClient.Failure? {
        error := ErrorText(DECRYPT_ERROR_PREFIX + encryptedClient.message);
        loading := false;
        DecryptViewShape(Failure(encryptedClient.message));
        return Fail(encryptedClient.message);
      }
      var result := calls.retrieveAndDecryptFile(encryptedClient.value, cid);
      if result.Failure? {
        error := ErrorText(DECRYPT_ERROR_PREFIX + result.message);
        loading := false;
        DecryptViewShape(result);
        return Fail(result.message);
      }
      match Classify(result.value) {
        case ShowText(t) => decryptedContent := t;
        case ShowUrl(u) => decryptedUrl := Some(u);
        case ShowError(e) => error := ErrorText(e);
      }
      loading := false;
      DecryptViewShape(result);
      r := Pass;
    }
  }
}
