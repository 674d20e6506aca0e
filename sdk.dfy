/** Values that the application receives from, or hands to, code it does not
    own: the Storacha client and UCAN libraries, the Lit SDK and the browser.
    Their behaviour is not modelled; each is an opaque token whose identity
    is all the application observes. */
module Sdk {
  import opened Common
  import opened Js

  /** A parsed UCAN delegation (`Proof.parse` / `importDAG`). */
  datatype Proof = Proof(root: string)

  /** One block of a CAR archive as `CarReader.blocks()` yields it. */
  datatype Block = Block(cid: string, bytes: seq<byte>)

  /** An ed25519 principal from `Signer.parse`. */
  datatype Principal = Principal(did: string)

  /** A Storacha client from `Client.create`. */
  datatype Client = Client(agent: Principal)

  /** The connected `LitNodeClient` singleton returned by `getLitNodeClient`. */
  datatype LitNodeClient = LitNodeClient

  /** A JavaScript argument value as it reaches a callee; the decrypt page and
      hook disagree on the argument list, so which value lands where matters. */
  datatype JsArg =
    | LinkArg(cid: string)
    | BytesArg(bytes: seq<byte>)
    | JsonArg(json: JsonValue)
    | LitClientArg(client: LitNodeClient)

  /** The client built by `createEncryptionClient`, with the configuration it
      was given. */
  datatype EncryptionClient = EncryptionClient(storacha: Client, litClient: JsArg, sessionSigs: JsArg)

  /** The string form of a CID: multibase text, never empty. */
  type CidText = s: string | s != "" witness "b"

  /** The link `uploadEncryptedFile` resolves to: an object that may carry a
      `cid` property (given by its text, "" when that property is an empty
      string), and its own string form. */
  datatype Link = Link(cidProperty: Option<string>, text: CidText)

  /** A browser `File` chosen in an `<input type="file">`. */
  datatype File = File(name: string, mimeType: string, bytes: seq<byte>)
}
