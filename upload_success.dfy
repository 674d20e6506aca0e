/** The upload-success page (UploadSuccess.jsx): shows the CID it was
    navigated with, links it on the IPFS gateway, and forwards it to the
    decrypt page. */
module UploadSuccessPage {
  import opened Common
  import DecryptFilePage

  const GATEWAY_PREFIX := "https://storacha.link/ipfs/"
  const UPLOAD_PATH := "/upload"
  const DECRYPT_PATH := "/decrypt"

  /** `if (!cid)`: no CID in the navigation state, or an empty one. */
  predicate MissingCid(stateCid: Option<string>)
  {
    stateCid.None? || stateCid.value == ""
  }

  /** The effect: without a CID the page redirects to the upload page. */
  function RedirectEffect(stateCid: Option<string>): (navigation: Option<Navigation>)
    ensures navigation.Some? <==> MissingCid(stateCid)
    ensures navigation.Some? ==> navigation.value == Navigation(UPLOAD_PATH, None)
  {
    if MissingCid(stateCid) then Some(Navigation(UPLOAD_PATH, None)) else None
  }

  /** The page renders content only with a CID; otherwise it renders null. */
  function RenderedCid(stateCid: Option<string>): (shown: Option<string>)
    ensures shown.None? <==> MissingCid(stateCid)
    ensures shown.Some? ==> shown == stateCid && shown.value != ""
  {
    if MissingCid(stateCid) then None else stateCid
  }

  /** The gateway link `https://storacha.link/ipfs/${cid}`. */
  function GatewayUrl(cid: string): (url: string)
    ensures StartsWith(url, GATEWAY_PREFIX)
    ensures |url| == |GATEWAY_PREFIX| + |cid|
  {
    GATEWAY_PREFIX + cid
  }

  /** Reading the CID back out of a gateway link. */
  function CidOfGatewayUrl(url: string): Option<string>
  {
    if StartsWith(url, GATEWAY_PREFIX) then Some(url[|GATEWAY_PREFIX|..]) else None
  }

  /** The link is exactly the prefix followed by the CID: reading it back
      yields the CID, so distinct CIDs give distinct links. */
  lemma GatewayUrlRoundTrip(cid: string)
    ensures CidOfGatewayUrl(GatewayUrl(cid)) == Some(cid)
  {
    assert GatewayUrl(cid)[|GATEWAY_PREFIX|..] == cid;
  }

  lemma GatewayUrlInjective(cid1: string, cid2: string)
    requires GatewayUrl(cid1) == GatewayUrl(cid2)
    ensures cid1 == cid2
  {
    GatewayUrlRoundTrip(cid1);
    GatewayUrlRoundTrip(cid2);
  }

  /** "Go to Decrypt": navigate to the decrypt page carrying the CID. */
  function GoToDecrypt(cid: string): (navigation: Navigation)
    ensures navigation.path == DECRYPT_PATH && navigation.stateCid == Some(cid)
  {
    Navigation(DECRYPT_PATH, Some(cid))
  }

  /** A CID shown here reaches the decrypt page unchanged as its initial
      CID, and a page with a CID does not redirect. */
  lemma ForwardedCidBecomesInitialCid(stateCid: Option<string>)
    requires RenderedCid(stateCid).Some?
    ensures RedirectEffect(stateCid).None?
    ensures DecryptFilePage.InitialCid(GoToDecrypt(RenderedCid(stateCid).value).stateCid) == stateCid.value
  {
  }
}
