/** The upload page (UploadFile.jsx): a three-step flow over the upload hook,
    from a pasted delegation (step 1) to a chosen file (step 2) to the CID of
    the upload (step 3). */
module UploadFilePage {
  import opened Common
  import opened Sdk
  import EncryptedUpload

  class UploadFilePage {
    var delegation: string
    var file: Option<File>
    var step: int
    const hook: EncryptedUpload.EncryptedUploadHook

    constructor (hook: EncryptedUpload.EncryptedUploadHook)
      ensures this.hook == hook
      ensures step == 1 && delegation == "" && file.None?
    {
      this.hook := hook;
      delegation := "";
      file := None;
      step := 1;
    }

    /** The load button is disabled without a delegation or while loading. */
    predicate LoadDisabled()
      reads this, hook
    {
      delegation == "" || hook.loading
    }

    /** The upload button is disabled without a file or while loading. */
    predicate UploadDisabled()
      reads this, hook
    {
      file.None? || hook.loading
    }

    /** The CID panel shows only at step 3 with a non-empty CID. */
    predicate CidPanelShown()
      reads this, hook
    {
      step == 3 && hook.cid != ""
    }

    /** `handleDelegationChange`: records the text and clears the error. */
    method HandleDelegationChange(text: string)
      modifies this, hook
      ensures delegation == text && hook.error == ""
      ensures step == old(step) && file == old(file)
      ensures hook.loading == old(hook.loading) && hook.space == old(hook.space) && hook.cid == old(hook.cid)
    {
      delegation := text;
      hook.SetError("");
    }

    /** `handleLoadDelegation`: step 2 only once the hook's load resolves; a
        rejection (reported by the hook) leaves the step. */
    method HandleLoadDelegation(calls: EncryptedUpload.LoadCalls)
      modifies this, hook
      ensures step == (if EncryptedUpload.LoadOutcome(calls).Success? then 2 else old(step))
      ensures EncryptedUpload.LoadOutcome(calls).Success? ==> hook.space == Some(EncryptedUpload.LoadOutcome(calls).value)
      ensures EncryptedUpload.LoadOutcome(calls).Failure? ==>
        hook.error == EncryptedUpload.LOAD_ERROR_PREFIX + EncryptedUpload.LoadOutcome(calls).message
      ensures delegation == old(delegation) && file == old(file)
      ensures LoadDisabled() <==> delegation == ""
      ensures UploadDisabled() <==> file.None?
    {
      var r := hook.LoadDelegation(delegation, calls);
      if r.Success? {
        step := 2;
      }
    }

    /** `handleFileChange`: records the selection and clears the error. */
    method HandleFileChange(selected: Option<File>)
      modifies this, hook
      ensures file == selected && hook.error == ""
      ensures step == old(step) && delegation == old(delegation)
      ensures hook.loading == old(hook.loading) && hook.space == old(hook.space) && hook.cid == old(hook.cid)
    {
      file := selected;
      hook.SetError("");
    }

    /** `handleEncryptAndUpload`: step 3 only once the hook's upload resolves,
        and the CID panel then shows, since the stored CID is always truthy; a
        rejection leaves the step and the panel hidden. */
    method HandleEncryptAndUpload(calls: EncryptedUpload.UploadCalls)
      modifies this, hook
      ensures step == (if EncryptedUpload.UploadOutcome(calls).Success? then 3 else old(step))
      ensures EncryptedUpload.UploadOutcome(calls).Success? ==>
        hook.cid == EncryptedUpload.UploadOutcome(calls).value && CidPanelShown()
      ensures EncryptedUpload.UploadOutcome(calls).Failure? ==>
        !CidPanelShown()
        && hook.error == EncryptedUpload.UPLOAD_ERROR_PREFIX + EncryptedUpload.UploadOutcome(calls).message
      ensures !hook.loading
      ensures delegation == old(delegation) && file == old(file)
      ensures LoadDisabled() <==> delegation == ""
      ensures UploadDisabled() <==> file.None?
    {
      var r := hook.EncryptAndUpload(file, calls);
      if r.Success? {
        step := 3;
      }
    }
  }
}
