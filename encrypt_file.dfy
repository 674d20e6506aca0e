/** The encrypt page (EncryptFile.jsx): a two-step flow over the upload hook,
    from a pasted delegation to a chosen file, that ends by navigating to the
    upload-success page with the new CID. */
module EncryptFilePage {
  import opened Common
  import opened Sdk
  import EncryptedUpload

  const UPLOAD_SUCCESS_PATH := "/upload-success"
  const UNKNOWN_ERROR := "Unknown error"
  const TEXT_MIME_PREFIX := "text/"

  /** The fields of the object the upload hook returns; the page destructures
      `spaceDid` and `spaceName`, which are not among them. */
  const HOOK_RESULT_FIELDS: set<string> :=
    {"loading", "error", "space", "cid", "proof", "loadDelegation", "encryptAndUpload", "setError", "setCid", "setSpace"}

  /** What the page shows for a chosen file: its text, or a size summary
      ("Binary file: … KB"). */
  datatype FileContent = TextContent(text: string) | BinarySummary(size: nat)

  /** `err.message || 'Unknown error'` */
  function PageError(message: string): (e: string)
    ensures e != ""
    ensures message != "" ==> e == message
  {
    if message != "" then message else UNKNOWN_ERROR
  }

  class EncryptFilePage {
    var delegation: string
    var file: Option<File>
    var fileContent: Option<FileContent>
    var step: int
    const hook: EncryptedUpload.EncryptedUploadHook

    constructor (hook: EncryptedUpload.EncryptedUploadHook)
      ensures this.hook == hook
      ensures step == 1 && delegation == "" && file.None? && fileContent.None?
    {
      this.hook := hook;
      delegation := "";
      file := None;
      fileContent := None;
      step := 1;
    }

    /** The load button is disabled without a delegation or while loading. */
    predicate LoadDisabled()
      reads this, hook
    {
      delegation == "" || hook.loading
    }

    /** The upload button is disabled without a file or while loading. */
    predicate UploadDisabled()
      reads this, hook
    {
      file.None? || hook.loading
    }

    /** The effect that skips to step 2 when the environment supplies a
        delegation and the hook has a space: `spaceDid` is read from the hook's
        result under that name, so it is undefined unless `hookFields` has it. */
    method AutoAdvance(envDelegation: string, hookFields: set<string>)
      modifies this
      ensures var spaceDid := if "spaceDid" in hookFields then hook.space else None;
        step == (if envDelegation != "" && spaceDid.Some? && spaceDid.value != "" then 2 else old(step))
      ensures "spaceDid" !in hookFields ==> step == old(step)
      ensures delegation == old(delegation) && file == old(file) && fileContent == old(fileContent)
    {
      var spaceDid := if "spaceDid" in hookFields then hook.space else None;
      if envDelegation != "" && spaceDid.Some? && spaceDid.value != "" {
        step := 2;
      }
    }

    /** `handleDelegationChange`: records the text and clears the error. */
    method HandleDelegationChange(text: string)
      modifies this, hook
      ensures delegation == text && hook.error == ""
      ensures step == old(step) && file == old(file) && fileContent == old(fileContent)
      ensures hook.loading == old(hook.loading) && hook.space == old(hook.space) && hook.cid == old(hook.cid)
      ensures hook.proof == old(hook.proof)
    {
      delegation := text;
      hook.SetError("");
    }

    /** `handleLoadDelegation`: step 2 once the hook's load resolves; a
        rejection (already reported by the hook) leaves the step. */
    method HandleLoadDelegation(calls: EncryptedUpload.LoadCalls)
      modifies this, hook
      ensures step == (if EncryptedUpload.LoadOutcome(calls).Success? then 2 else old(step))
      ensures EncryptedUpload.LoadOutcome(calls).Failure? ==>
        hook.error == EncryptedUpload.LOAD_ERROR_PREFIX + EncryptedUpload.LoadOutcome(calls).message
      ensures delegation == old(delegation) && file == old(file) && fileContent == old(fileContent)
      ensures LoadDisabled() <==> delegation == ""
      ensures UploadDisabled() <==> file.None?
    {
      var r := hook.LoadDelegation(delegation, calls);
      if r.Success? {
        step := 2;
      }
    }

    /** `handleFileChange`, given the selection and what reading it as text
        yields: records the selection and clears the error; a `text/` file is
        previewed as its text (null when reading fails), any other file as a
        size summary; no selection leaves the preview. */
    method HandleFileChange(selected: Option<File>, readAsText: Result<string>)
      modifies this, hook
      ensures file == selected && hook.error == ""
      ensures selected.None? ==> fileContent == old(fileContent)
      ensures selected.Some? && StartsWith(selected.value.mimeType, TEXT_MIME_PREFIX) ==>
        fileContent == (if readAsText.Success? then Some(TextContent(readAsText.value)) else None)
      ensures selected.Some? && !StartsWith(selected.value.mimeType, TEXT_MIME_PREFIX) ==>
        fileContent == Some(BinarySummary(|selected.value.bytes|))
      ensures step == old(step) && delegation == old(delegation)
      ensures hook.loading == old(hook.loading) && hook.space == old(hook.space) && hook.cid == old(hook.cid)
    {
      file := selected;
      hook.SetError("");
      if selected.Some? {
        if StartsWith(selected.value.mimeType, TEXT_MIME_PREFIX) {
          match readAsText {
            case Success(text) => fileContent := Some(TextContent(text));
            case Failure(_) => fileContent := None;
          }
        } else {
          fileContent := Some(BinarySummary(|selected.value.bytes|));
        }
      }
    }

    /** `handleEncryptAndUpload`, given what `getLitNodeClient` yields: on
        success the page navigates to the upload-success page carrying the
        CID the hook recorded; on failure it returns no navigation and the
        error becomes the failure's bare message (replacing the hook's
        prefixed one) or "Unknown error". */
    method HandleEncryptAndUpload(litClient: Result<LitNodeClient>, calls: EncryptedUpload.UploadCalls)
      returns (navigation: Option<Navigation>)
      modifies this, hook
      ensures litClient.Failure? ==>
        navigation.None? && hook.error == PageError(litClient.message) && hook.cid == old(hook.cid)
      ensures litClient.Success? && EncryptedUpload.UploadOutcome(calls).Failure? ==>
        navigation.None? && hook.error == PageError(EncryptedUpload.UploadOutcome(calls).message)
      ensures litClient.Success? && EncryptedUpload.UploadOutcome(calls).Success? ==>
        navigation == Some(Navigation(UPLOAD_SUCCESS_PATH, Some(EncryptedUpload.UploadOutcome(calls).value)))
        && hook.cid == EncryptedUpload.UploadOutcome(calls).value && hook.error == ""
      ensures navigation.Some? ==> navigation.value.stateCid == Some(hook.cid)
      ensures litClient.Success? ==> !hook.loading && (UploadDisabled() <==> file.None?)
      ensures step == old(step) && delegation == old(delegation) && file == old(file) && fileContent == old(fileContent)
    {
      if litClient.Failure? {
        hook.SetError(PageError(litClient.message));
        return None;
      }
      var r := hook.EncryptAndUpload(file, calls);
      if r.Failure? {
        hook.SetError(PageError(r.message));
        return None;
      }
      navigation := Some(Navigation(UPLOAD_SUCCESS_PATH, Some(r.value)));
    }
  }

  /** As the page is written the auto-advance effect never moves a freshly
      mounted page off step 1, whatever the environment delegation and the
      hook's space: the hook's result has no `spaceDid` field. */
  method AutoAdvanceAsWritten(envDelegation: string, hook: EncryptedUpload.EncryptedUploadHook) returns (step: int)
    ensures step == 1
  {
    var page := new EncryptFilePage(hook);
    page.AutoAdvance(envDelegation, HOOK_RESULT_FIELDS);
    step := page.step;
  }
}
