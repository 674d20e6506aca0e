/** The decrypt page (DecryptFile.jsx): a CID and a pasted delegation, loaded
    through the download hook on every change, then decryption as the primary
    or the recovery PKP. */
module DecryptFilePage {
  import opened Common
  import opened Js
  import opened Sdk
  import DecryptedDownload
  import AuthContext

  /** The initial CID: `(location.state && location.state.cid) || ""`, where
      `stateCid` is the `cid` of the navigation state, if any. */
  function InitialCid(stateCid: Option<string>): (cid: string)
    ensures stateCid.Some? ==> cid == stateCid.value
    ensures stateCid.None? ==> cid == ""
  {
    match stateCid
    case Some(c) => c
    case None => ""
  }

  /** The arguments of the page's call
      `decryptFile(link, delegationData, pkp, authMethod, litClient)`. */
  function DecryptFileCallArgs(link: string, archive: seq<byte>, pkp: JsonValue, authMethod: JsonValue,
                               litClient: LitNodeClient): seq<JsArg>
  {
    [LinkArg(link), BytesArg(archive), JsonArg(pkp), JsonArg(authMethod), LitClientArg(litClient)]
  }

  /** JavaScript binds arguments to parameters by position and drops the
      surplus: what `decryptFile(cid, litClient, sessionSigs)` receives. */
  function BindThree(args: seq<JsArg>): (params: (JsArg, JsArg, JsArg))
    requires |args| >= 3
    ensures params.0 == args[0] && params.1 == args[1] && params.2 == args[2]
  {
    (args[0], args[1], args[2])
  }

  /** The hook receives the archive bytes as its Lit client and the PKP as
      its session signatures; the auth method and the Lit client do not
      reach it. */
  lemma DecryptFileArgumentShift(link: string, archive: seq<byte>, pkp: JsonValue, authMethod: JsonValue,
                                 litClient: LitNodeClient)
    ensures var (cid, lit, sigs) := BindThree(DecryptFileCallArgs(link, archive, pkp, authMethod, litClient));
      && cid == LinkArg(link) && lit == BytesArg(archive) && sigs == JsonArg(pkp)
      && !lit.LitClientArg? && !sigs.LitClientArg?
  {
  }

  /** What the steps of a decrypt handler yield: `getLitNodeClient`,
      `Proof.parse(delegation)`, `proof.archive()` (its `error` is a Failure),
      `parseLink(cid)` and the hook's foreign calls. */
  datatype DecryptInputs = DecryptInputs(
    litClient: Result<LitNodeClient>,
    proof: Result<Proof>,
    archive: Result<seq<byte>>,
    link: Result<string>,
    calls: DecryptedDownload.DecryptCalls)

  /** The handler reaches `decryptFile`. */
  predicate CallsDecrypt(inputs: DecryptInputs)
  {
    inputs.litClient.Success? && inputs.proof.Success? && inputs.archive.Success? && inputs.link.Success?
  }

  /** The handler stops before `proof.archive()` reports: a rejection it does
      not catch. */
  predicate RejectsEarly(inputs: DecryptInputs)
  {
    inputs.litClient.Failure? || inputs.proof.Failure?
  }

  /** What `decryptFile` retrieves when the handler calls it with `pkp` and
      `authMethod`, given the hook's cached client. */
  function Retrieved(cached: Option<Client>, inputs: DecryptInputs, pkp: JsonValue, authMethod: JsonValue): Result<DecryptedDownload.Retrieved>
    requires CallsDecrypt(inputs)
  {
    var (cid, lit, sigs) := BindThree(DecryptFileCallArgs(inputs.link.value, inputs.archive.value, pkp, authMethod, inputs.litClient.value));
    DecryptedDownload.Retrieve(cached, inputs.calls, cid, lit, sigs)
  }

  class DecryptFilePage {
    var cid: string
    var delegation: string
    var delegationLoaded: bool
    var parsedDelegations: Option<seq<Proof>>
    const hook: DecryptedDownload.DecryptedDownloadHook
    const auth: AuthContext.AuthProvider

    constructor (stateCid: Option<string>, hook: DecryptedDownload.DecryptedDownloadHook, auth: AuthContext.AuthProvider)
      ensures this.hook == hook && this.auth == auth
      ensures cid == InitialCid(stateCid)
      ensures delegation == "" && !delegationLoaded && parsedDelegations.None?
    {
      this.hook := hook;
      this.auth := auth;
      cid := InitialCid(stateCid);
      delegation := "";
      delegationLoaded := false;
      parsedDelegations := None;
    }

    /** Both decrypt buttons are enabled only with a CID, a loaded delegation
        and nothing loading. */
    predicate DecryptEnabled()
      reads this, hook
    {
      cid != "" && delegationLoaded && !hook.loading
    }

    /** The CID input. */
    method SetCid(text: string)
      modifies this
      ensures cid == text
      ensures delegation == old(delegation) && delegationLoaded == old(delegationLoaded)
      ensures parsedDelegations == old(parsedDelegations)
    {
      cid := text;
    }

    /** The delegation input and the effect it triggers: everything derived
        from the previous delegation is reset; an empty delegation loads
        nothing; otherwise the hook loads it and `delegationLoaded` is true
        exactly when that resolves, after which the parsed delegation is kept
        for display when `Proof.parse` succeeds. */
    method OnDelegationChange(text: string, load: DecryptedDownload.LoadCalls, displayParse: Result<Proof>)
      modifies this, hook
      ensures delegation == text
      ensures delegationLoaded <==> text != "" && DecryptedDownload.LoadOutcome(old(hook.clientRef), text, load).Pass?
      ensures parsedDelegations == if delegationLoaded && displayParse.Success? then Some([displayParse.value]) else None
      ensures hook.decryptedUrl.None? && hook.decryptedContent == ""
      ensures text == "" ==> hook.error == ErrorText("") && hook.clientRef == old(hook.clientRef) && hook.proof == old(hook.proof)
      ensures text != "" ==>
        hook.error == ErrorText(if delegationLoaded then ""
                                else DecryptedDownload.LOAD_ERROR_PREFIX + DecryptedDownload.LoadOutcome(old(hook.clientRef), text, load).message)
      ensures cid == old(cid)
      ensures text != "" ==> !hook.loading
      ensures text == "" ==> hook.loading == old(hook.loading) && !DecryptEnabled()
      ensures text != "" ==> (DecryptEnabled() <==> cid != "" && delegationLoaded)
    {
      delegation := text;
      delegationLoaded := false;
      hook.SetError(ErrorText(""));
      hook.SetDecryptedUrl(None);
      hook.SetDecryptedContent("");
      parsedDelegations := None;
      if text != "" {
        var r := hook.LoadDelegation(text, load);
        if r.Pass? {
          delegationLoaded := true;
          if displayParse.Success? {
            parsedDelegations := Some([displayParse.value]);
          }
        } else {
          delegationLoaded := false;
        }
      }
    }

    /** The steps both handlers share once any clearing is done: an archive
        error is reported and `decryptFile` is not called. */
    method DecryptAs(pkp: JsonValue, authMethod: JsonValue, inputs: DecryptInputs) returns (r: Outcome)
      modifies hook
      ensures RejectsEarly(inputs) ==> r.Fail? && unchanged(hook)
      ensures !RejectsEarly(inputs) && inputs.archive.Failure? ==>
        r == Pass && hook.error == ErrorObject(inputs.archive.message)
        && hook.decryptedUrl == old(hook.decryptedUrl) && hook.decryptedContent == old(hook.decryptedContent)
        && hook.loading == old(hook.loading) && hook.clientRef == old(hook.clientRef) && hook.proof == old(hook.proof)
      ensures !RejectsEarly(inputs) && inputs.archive.Success? && inputs.link.Failure? ==> r.Fail? && unchanged(hook)
      ensures CallsDecrypt(inputs) ==>
        var retrieved := Retrieved(old(hook.clientRef), inputs, pkp, authMethod);
        && DecryptedDownload.View(hook.error, hook.decryptedUrl, hook.decryptedContent) == DecryptedDownload.ViewAfterDecrypt(retrieved)
        && r == (if retrieved.Failure? then Fail(retrieved.message) else Pass)
        && !hook.loading
    {
      if inputs.litClient.Failure? {
        return Fail(inputs.litClient.message);
      }
      if inputs.proof.Failure? {
        return Fail(inputs.proof.message);
      }
      if inputs.archive.Failure? {
        hook.SetError(ErrorObject(inputs.archive.message));
        return Pass;
      }
      if inputs.link.Failure? {
        return Fail(inputs.link.message);
      }
      var args := DecryptFileCallArgs(inputs.link.value, inputs.archive.value, pkp, authMethod, inputs.litClient.value);
      var (cidArg, litArg, sigsArg) := BindThree(args);
      r := hook.DecryptFile(cidArg, litArg, sigsArg, inputs.calls);
    }

    /** `handleDecrypt`: clears the error, URL and content, then decrypts as
        the primary PKP with the primary auth method. */
    method HandleDecrypt(inputs: DecryptInputs) returns (r: Outcome)
      modifies hook
      ensures RejectsEarly(inputs) ==>
        r.Fail? && hook.error == ErrorText("") && hook.decryptedUrl.None? && hook.decryptedContent == ""
      ensures !RejectsEarly(inputs) && inputs.archive.Failure? ==>
        r == Pass && hook.error == ErrorObject(inputs.archive.message) && hook.decryptedUrl.None? && hook.decryptedContent == ""
        && hook.clientRef == old(hook.clientRef)
      ensures CallsDecrypt(inputs) ==>
        var retrieved := Retrieved(old(hook.clientRef), inputs, auth.primaryPKP, auth.primaryAuthMethod);
        DecryptedDownload.View(hook.error, hook.decryptedUrl, hook.decryptedContent) == DecryptedDownload.ViewAfterDecrypt(retrieved)
        && r == (if retrieved.Failure? then Fail(retrieved.message) else Pass)
    {
      hook.SetError(ErrorText(""));
      hook.SetDecryptedUrl(None);
      hook.SetDecryptedContent("");
      r := DecryptAs(auth.primaryPKP, auth.primaryAuthMethod, inputs);
    }

    /** `handleRecoveryDecrypt`: decrypts as the recovery PKP with the
        recovery auth method, without clearing anything first. */
    method HandleRecoveryDecrypt(inputs: DecryptInputs) returns (r: Outcome)
      modifies hook
      ensures RejectsEarly(inputs) ==> r.Fail? && unchanged(hook)
      ensures !RejectsEarly(inputs) && inputs.archive.Failure? ==>
        r == Pass && hook.error == ErrorObject(inputs.archive.message)
        && hook.decryptedUrl == old(hook.decryptedUrl) && hook.decryptedContent == old(hook.decryptedContent)
        && hook.clientRef == old(hook.clientRef)
      ensures CallsDecrypt(inputs) ==>
        var retrieved := Retrieved(old(hook.clientRef), inputs, auth.recoveryPKP, auth.recoveryAuthMethod);
        DecryptedDownload.View(hook.error, hook.decryptedUrl, hook.decryptedContent) == DecryptedDownload.ViewAfterDecrypt(retrieved)
        && r == (if retrieved.Failure? then Fail(retrieved.message) else Pass)
    {
      r := DecryptAs(auth.recoveryPKP, auth.recoveryAuthMethod, inputs);
    }
  }

  /** The two paths differ only in the PKP they pass: the auth method is
      dropped by the argument shift, so it never affects what is retrieved. */
  lemma AuthMethodNeverReachesDecrypt(cached: Option<Client>, inputs: DecryptInputs, pkp: JsonValue,
                                      authMethod1: JsonValue, authMethod2: JsonValue)
    requires CallsDecrypt(inputs)
    ensures Retrieved(cached, inputs, pkp, authMethod1) == Retrieved(cached, inputs, pkp, authMethod2)
  {
  }
}
