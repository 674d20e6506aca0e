# lit-pkp-demo core, modelled in Dafny

This project models the core of a browser demo app. The app lets a user sign in
with Google and mint Lit Protocol PKPs (programmable key pairs). It then
encrypts files and uploads them to Storacha, and retrieves and decrypts them
again. The model covers these parts:

- **The AES-GCM crypto adapter** (`crypto_adapter.dfy`). It has key generation and
  key import (128/192/256-bit raw keys only). It draws a random 32-byte key and
  12-byte IV, drains a byte stream into chunks, concatenates them, and emits a
  one-chunk closed stream. The stream is a class over a `seq` queue.
  `EncryptThenDecrypt` proves that decrypting what the adapter encrypted gives
  back the concatenated plaintext. It assumes a cipher whose decryption inverts
  its encryption.
- **The encrypted-upload hook** (`encrypted_upload.dfy`). It covers CAR parsing
  (a block-collecting loop), client creation, loading a delegation into a space,
  and encrypt-and-upload. The hook's state is a class with `loading`, `error`,
  `space`, `cid` and `proof`.
- **The decrypted-download hook** (`decrypted_download.dfy`). It covers proof
  parsing, the client created once and cached, and loading a delegation. It also
  covers decrypting a CID and deciding whether the result shows as text (the
  printable-ASCII regex and the 10000-character limit) or as a download URL.
- **JWT email extraction** from Home.jsx (`jwt_email.dfy`). It has JavaScript
  `split` semantics, the base64url-to-base64 rewrite, and the `%xx` re-encoding
  of each decoded character. It is proved to round-trip through percent
  decoding.
- **The auth context** (`auth_context.dfy`). It covers loading PKPs and auth
  methods from `localStorage` on mount, minting the primary and recovery PKPs
  once an OAuth method arrives, the sign-in setup, and logout. `localStorage` is
  a class over a `map`.
- **The pages**. EncryptFile (`encrypt_file.dfy`), DecryptFile
  (`decrypt_file.dfy`), UploadFile (`upload_file.dfy`) and UploadSuccess
  (`upload_success.dfy`) are classes that hold a hook and call its methods, as
  the components do.

Browser, SDK and network calls cannot be seen from here: SubtleCrypto,
`Client.create`, `addSpace`, `retrieveAndDecryptFile`, `JSON.parse`, `atob`,
`decodeURIComponent` and the like. Each one is a parameter, either as the value
it yields (`Result`, `Outcome`) or as a function-typed field of a datatype
(`SubtleCrypto`, `JsonCodec`, `Builtins`, `DecryptCalls`). Every contract holds
for any value the call may yield.

Three behaviours of the code are modelled as written, not as evidently intended:

- The upload hook passes `serviceConf` and `receiptsEndpoint` to
  `Client.create`, but neither name is defined in its module. Evaluating that
  object literal throws a `ReferenceError`. `CreateStorachaClient` checks the
  names against the module's scope, and `AsWrittenClientCreationFails` /
  `AsWrittenOperationsFail` show that every load and upload then fails.
  The same module also calls `Buffer.from`, and `Buffer` is neither imported
  nor a browser global unless the build supplies one. The `car` outcome of
  `LoadCalls` covers that failure too: without `Buffer`, a load already fails
  in `parseProof`, before any client is created.
- EncryptFile destructures `spaceDid` from the upload hook, which returns no
  such field. The auto-advance effect therefore never fires
  (`AutoAdvanceAsWritten`).
- DecryptFile calls `decryptFile(link, delegationData, pkp, authMethod,
  litClient)`, but the hook's function takes `(cid, litClient, sessionSigs)`. The
  archive bytes therefore arrive as the Lit client and the PKP as the session
  signatures. The auth method and the real Lit client are dropped
  (`DecryptFileArgumentShift`, `AuthMethodNeverReachesDecrypt`).

The upload hook uses the encrypt-upload library's own `BrowserCryptoAdapter`.
Only the download hook uses the local adapter, so the adapter modelled here
matters only for decryption in the app as written.

## Model

| member | source | states |
|---|---|---|
| CryptoAdapter.ImportKey | src/crypto-adapters/browser-crypto-adapter.js:30-36 | a raw key imports exactly when it is 128, 192 or 256 bits long; the result is non-extractable and keeps the bytes, and any other length fails |
| CryptoAdapter.GetRandomValues | src/crypto-adapters/browser-crypto-adapter.js:28-29 | the random array has exactly the requested length |
| CryptoAdapter.EndOfStream | src/crypto-adapters/browser-crypto-adapter.js:45 | reading an empty finished stream reports done exactly when it was closed, and an errored stream's read fails with the stream's reason |
| CryptoAdapter.ByteStream.constructor | src/crypto-adapters/browser-crypto-adapter.js:42 | a new stream is readable and empty |
| CryptoAdapter.ByteStream.OfParts | src/crypto-adapters/browser-crypto-adapter.js:40 | a blob's stream holds its parts in order and is closed |
| CryptoAdapter.ByteStream.Enqueue | src/crypto-adapters/browser-crypto-adapter.js:58 | enqueueing appends exactly one chunk at the end and keeps the stream readable |
| CryptoAdapter.ByteStream.Close | src/crypto-adapters/browser-crypto-adapter.js:59 | closing keeps the queued chunks and marks the stream closed |
| CryptoAdapter.ByteStream.Error | src/crypto-adapters/browser-crypto-adapter.js:43-60 | erroring discards the queue and records the reason |
| CryptoAdapter.ByteStream.Read | src/crypto-adapters/browser-crypto-adapter.js:45 | a read takes the first queued chunk, or reports end of stream once the queue is empty |
| CryptoAdapter.ReadAll | src/crypto-adapters/browser-crypto-adapter.js:45-47 | the read loop collects every queued chunk in order and empties the stream; it reports the error reason exactly when the stream errored |
| CryptoAdapter.BrowserCryptoAdapter.GenerateKey | src/crypto-adapters/browser-crypto-adapter.js:13-19 | the key is a 256-bit extractable AES-GCM key usable to encrypt and decrypt |
| CryptoAdapter.BrowserCryptoAdapter.EncryptStream | src/crypto-adapters/browser-crypto-adapter.js:26-68 | the key is 32 bytes and the IV 12; the returned stream ends as the encryption of the concatenated plaintext under that key and IV, or as the failure |
| CryptoAdapter.BrowserCryptoAdapter.DecryptStream | src/crypto-adapters/browser-crypto-adapter.js:77-108 | a key of bad length rejects before reading; otherwise the stream drains and the output is the decryption of its concatenation, or the read or decrypt failure |
| CryptoAdapter.OutcomeRoundTrip | src/crypto-adapters/browser-crypto-adapter.js:49-57 | decrypting the adapter's ciphertext chunk with the same key and IV yields the concatenated plaintext |
| CryptoAdapter.EncryptThenDecrypt | src/crypto-adapters/browser-crypto-adapter.js:26-108 | encrypting a blob and decrypting the resulting stream with the returned key and IV gives back the blob's bytes |
| Common.ConcatLength | src/crypto-adapters/browser-crypto-adapter.js:49 | the concatenated buffer is as long as all chunks together |
| Common.TotalLengthPrefix | src/crypto-adapters/browser-crypto-adapter.js:49 | the chunks before any position are no longer in total than all chunks |
| Common.ConcatPlacesChunk | src/crypto-adapters/browser-crypto-adapter.js:49 | each chunk's bytes sit in the concatenation at the offset of the chunks before it |
| Js.GetProperty | src/components/Home.jsx:53 | reading a property throws a TypeError exactly on null; a defined result is the object's own field of that name |
| DecryptedDownload.MatchesFromIff | src/hooks/useStorachaDecryptedDownload.js:93 | the regex matches a suffix exactly when every character in it is printable ASCII, CR, LF or tab |
| DecryptedDownload.ShowsInlineIff | src/hooks/useStorachaDecryptedDownload.js:93 | text is shown inline exactly when it is non-empty, all printable or whitespace, and shorter than 10000 characters |
| DecryptedDownload.InlineLengthBoundary | src/hooks/useStorachaDecryptedDownload.js:93 | a text made only of printable or whitespace characters is shown inline exactly when its length is 1 to 9999 |
| DecryptedDownload.SniffingExamples | src/hooks/useStorachaDecryptedDownload.js:93 | a printable line with a newline is shown inline; any text containing a NUL is not, nor is a text with an escape, a DEL or a non-ASCII character |
| DecryptedDownload.Classify | src/hooks/useStorachaDecryptedDownload.js:88-117 | a blob or byte array shows its text inline exactly when the sniffing test passes, else a download URL; a `text/` content object shows text; a non-text content object gives a URL; anything else is the unknown-result error |
| DecryptedDownload.ParseProof | src/hooks/useStorachaDecryptedDownload.js:27-30 | empty data fails with "No proof data provided"; otherwise the result is Proof.parse's |
| DecryptedDownload.CacheIsStable | src/hooks/useStorachaDecryptedDownload.js:33-49 | once a client is cached it is reused unchanged, and a successful creation is cached |
| DecryptedDownload.DecryptViewShape | src/hooks/useStorachaDecryptedDownload.js:71-124 | after decryption the URL and the text are never both set, an error leaves both cleared, a failure shows the decrypt prefix and its message, and a success shows no error or the unknown-result error |
| DecryptedDownload.DecodedTextPlacement | src/hooks/useStorachaDecryptedDownload.js:88-106 | decoded text lands in the content exactly when it passes the sniffing test |
| DecryptedDownload.DecryptedDownloadHook.constructor | src/hooks/useStorachaDecryptedDownload.js:19-24 | the hook starts idle, error-free, with no URL, no content, no cached client and no proof |
| DecryptedDownload.DecryptedDownloadHook.SetError | src/hooks/useStorachaDecryptedDownload.js:133 | sets the error and nothing else |
| DecryptedDownload.DecryptedDownloadHook.SetDecryptedUrl | src/hooks/useStorachaDecryptedDownload.js:134 | sets the URL and nothing else |
| DecryptedDownload.DecryptedDownloadHook.SetDecryptedContent | src/hooks/useStorachaDecryptedDownload.js:135 | sets the content and nothing else |
| DecryptedDownload.DecryptedDownloadHook.GetOrCreateStorachaClient | src/hooks/useStorachaDecryptedDownload.js:33-49 | a cached client is returned without any call; otherwise an empty agent key fails and a created client is cached |
| DecryptedDownload.DecryptedDownloadHook.LoadDelegation | src/hooks/useStorachaDecryptedDownload.js:52-67 | the outcome is the parse, client and addProof chain; a failure is reported with the load prefix and re-thrown; the proof is recorded once parsed; loading ends false |
| DecryptedDownload.DecryptedDownloadHook.DecryptFile | src/hooks/useStorachaDecryptedDownload.js:71-124 | clears the view, then shows the retrieved result as text, URL or error (a thrown failure with the decrypt prefix, and re-thrown); loading ends false |
| EncryptedUpload.ParseProof | src/hooks/useStorachaEncryptedUpload.js:18-25 | every block of the CAR is collected in order and handed to importDAG; a CAR read failure passes through |
| EncryptedUpload.CreateStorachaClient | src/hooks/useStorachaEncryptedUpload.js:28-39 | an empty agent key fails with its message; a name missing from scope fails with a "not defined" error; success needs both names in scope and yields the created client |
| EncryptedUpload.AsWrittenClientCreationFails | src/hooks/useStorachaEncryptedUpload.js:33-38 | with the module's own imports, client creation always fails, and with a valid key it fails on `serviceConf` |
| EncryptedUpload.AsWrittenOperationsFail | src/hooks/useStorachaEncryptedUpload.js:42-82 | with the module's own imports, every delegation load and every upload fails |
| EncryptedUpload.EncryptedUploadHook.constructor | src/hooks/useStorachaEncryptedUpload.js:11-15 | the hook starts idle, error-free, without space, CID or proof |
| EncryptedUpload.EncryptedUploadHook.SetError | src/hooks/useStorachaEncryptedUpload.js:92 | sets the error and nothing else |
| EncryptedUpload.EncryptedUploadHook.SetCid | src/hooks/useStorachaEncryptedUpload.js:93 | sets the CID and nothing else |
| EncryptedUpload.EncryptedUploadHook.SetSpace | src/hooks/useStorachaEncryptedUpload.js:94 | sets the space and nothing else |
| EncryptedUpload.EncryptedUploadHook.LoadDelegation | src/hooks/useStorachaEncryptedUpload.js:42-59 | on success the space is the new space DID and the error is empty; on failure the space is kept and the error has the load prefix; the proof is recorded once parsed; loading ends false; the CID is untouched |
| EncryptedUpload.CidOf | src/hooks/useStorachaEncryptedUpload.js:74-75 | `link.cid || link`: the `cid` property whenever it is truthy, otherwise the link itself, modelled by its string form; the result is never empty, so always truthy |
| EncryptedUpload.UploadOutcome | src/hooks/useStorachaEncryptedUpload.js:62-82 | a resolved upload yields the CID of the link `uploadEncryptedFile` returned, which is never empty |
| EncryptedUpload.EncryptedUploadHook.EncryptAndUpload | src/hooks/useStorachaEncryptedUpload.js:62-82 | on success the CID is `link.cid` when truthy, or else the link itself (modelled by its string form); on failure the CID is empty and the error has the upload prefix; loading ends false; space and proof are untouched |
| JwtEmail.Split | src/components/Home.jsx:55 | split always gives at least one part, as JavaScript's does |
| JwtEmail.SplitPartsFreeOfSeparator | src/components/Home.jsx:55 | no part of a split contains the separator |
| JwtEmail.JoinSplit | src/components/Home.jsx:55 | joining the parts of a split with the separator restores the string |
| JwtEmail.SplitAfterPart | src/components/Home.jsx:55 | splitting a separator-free part, the separator and a rest gives the part followed by the rest's parts |
| JwtEmail.SplitWithoutSeparator | src/components/Home.jsx:55 | a string without the separator splits into itself alone |
| JwtEmail.SplitJoin | src/components/Home.jsx:55 | splitting a join of separator-free parts gives the parts back |
| JwtEmail.PayloadSegment | src/components/Home.jsx:55 | `split(".")[1]` exists exactly when the token has a dot |
| JwtEmail.PayloadOfThreeSegments | src/components/Home.jsx:55 | for a header.payload.signature token the payload segment is the middle one |
| JwtEmail.ReplaceChar | src/components/Home.jsx:56 | a global replace keeps the length |
| JwtEmail.ReplaceCharAt | src/components/Home.jsx:56 | each character of a replace is the replacement where it matched and unchanged elsewhere |
| JwtEmail.Base64UrlToBase64 | src/components/Home.jsx:56 | the rewrite keeps the length |
| JwtEmail.Base64ToBase64Url | src/components/Home.jsx:56 | not code of the application: the reverse of line 56's rewrite, taken from section 5 of RFC 4648, as the partner of Base64UrlRoundTrip; it keeps the length |
| JwtEmail.Base64UrlToBase64At | src/components/Home.jsx:56 | each `-` becomes `+`, each `_` becomes `/`, and every other character stays |
| JwtEmail.Base64UrlToBase64Alphabet | src/components/Home.jsx:56 | the rewritten string has neither `-` nor `_` |
| JwtEmail.Base64UrlRoundTrip | src/components/Home.jsx:56 | rewriting a base64url string without `+` or `/` to base64 and back restores it |
| JwtEmail.HexDigit | src/components/Home.jsx:61 | `toString(16)` of a nibble is a lower-case hex digit whose value is that nibble |
| JwtEmail.HexValue | src/components/Home.jsx:61 | a character has a hex value exactly when it is a hex digit in either case, and the value is below 16 |
| JwtEmail.PercentEncodeChar | src/components/Home.jsx:60-62 | each character becomes `%` and two lowercase hex digits whose value is its code's low byte |
| JwtEmail.PercentEncode | src/components/Home.jsx:58-63 | the encoding has three characters per input character |
| JwtEmail.PercentRoundTrip | src/components/Home.jsx:57-63 | percent-decoding the encoding of a binary string restores it |
| JwtEmail.PercentEncodeInjective | src/components/Home.jsx:58-63 | distinct binary strings have distinct encodings |
| JwtEmail.AccessToken | src/components/Home.jsx:53 | only a truthy (non-empty string) access token proceeds |
| JwtEmail.GetEmailFromAuthMethod | src/components/Home.jsx:52-71 | no token, a null method or a token without a dot gives null; a token with a dot gives exactly what its payload segment decodes to (the email claim, undefined, or null when a decoding step throws) |
| JwtEmail.OnlyPayloadMatters | src/components/Home.jsx:55-66 | tokens with the same payload segment give the same email |
| JwtEmail.EmailOfWellFormedToken | src/components/Home.jsx:52-66 | a header.payload.signature token whose payload is the base64url of an ASCII JSON object yields that object's email |
| AuthContext.LocalStorage.constructor | src/context/AuthContext.jsx:110-113 | storage starts with the given items |
| AuthContext.LocalStorage.GetItem | src/context/AuthContext.jsx:110-113 | getItem yields the stored value exactly when the key is present |
| AuthContext.LocalStorage.SetItem | src/context/AuthContext.jsx:74-75 | setItem overwrites one key and keeps the rest |
| AuthContext.LocalStorage.RemoveItem | src/context/AuthContext.jsx:185-188 | removeItem drops one key and keeps the rest |
| AuthContext.Stored | src/context/AuthContext.jsx:115 | a stored value counts only when present and non-empty |
| AuthContext.LoadFailure | src/context/AuthContext.jsx:109-131 | there is no load error exactly when every stored value the load reaches parses |
| AuthContext.AfterLoadFields | src/context/AuthContext.jsx:107-138 | each field is loaded from its key when stored and parsed, authentication follows the primary PKP, the error is the first parse failure, and loading ends |
| AuthContext.AuthProvider.constructor | src/context/AuthContext.jsx:17-27 | the provider starts unauthenticated and loading, with null PKPs, auth methods and error |
| AuthContext.AuthProvider.LoadPKPData | src/context/AuthContext.jsx:107-138 | the new state is the mount load applied to storage and the old state |
| AuthContext.AuthProvider.HandlePrimaryPKP | src/context/AuthContext.jsx:53-84 | nothing happens unless there is an OAuth method and no primary PKP; then the auth method is set; on a mint the PKP is set, the user authenticated and exactly the two primary keys written; on failure the error is set and storage untouched |
| AuthContext.AuthProvider.HandleRecoveryPKP | src/context/AuthContext.jsx:87-104 | as for the primary PKP with the recovery keys, and authentication never changes |
| AuthContext.AuthProvider.Setup | src/context/AuthContext.jsx:141-174 | sign-in redirects to origin plus pathname, with the `recovery=true` state for recovery; a failure records the error and stops loading; PKPs and auth methods are untouched |
| AuthContext.AuthProvider.Logout | src/context/AuthContext.jsx:176-192 | logout clears the PKPs, the auth methods and authentication, removes exactly the four keys and goes to `/` |
| AuthContext.LoadOnMount | src/context/AuthContext.jsx:107-138 | a fresh provider is authenticated after the load exactly when a primary PKP is stored and parses; each field is its key's parsed value or null; the error is the first parse failure |
| AuthContext.MintThenReload | src/context/AuthContext.jsx:62-75 | after a primary mint, storage gains exactly the two primary keys, and a reload restores the PKP and the authentication |
| AuthContext.LogoutThenReload | src/context/AuthContext.jsx:176-188 | after logout, storage loses exactly the four keys, and a reload finds no PKP and no authentication |
| EncryptFilePage.PageError | src/components/EncryptFile.jsx:101 | the shown error is the message when non-empty, else "Unknown error", so it is never empty |
| EncryptFilePage.EncryptFilePage.constructor | src/components/EncryptFile.jsx:35-38 | the page starts at step 1 with no delegation, file or preview |
| EncryptFilePage.EncryptFilePage.AutoAdvance | src/components/EncryptFile.jsx:49-53 | step 2 is reached only with an environment delegation and a truthy `spaceDid` read from the hook's result, and nothing else changes |
| EncryptFilePage.AutoAdvanceAsWritten | src/components/EncryptFile.jsx:41-53 | with the fields the hook actually returns, a fresh page stays at step 1 |
| EncryptFilePage.EncryptFilePage.HandleDelegationChange | src/components/EncryptFile.jsx:56-59 | records the text and clears the error |
| EncryptFilePage.EncryptFilePage.HandleLoadDelegation | src/components/EncryptFile.jsx:61-68 | step 2 exactly when the load succeeds; a failure's prefixed error stays; afterwards the buttons are disabled only for lack of input |
| EncryptFilePage.EncryptFilePage.HandleFileChange | src/components/EncryptFile.jsx:71-91 | records the selection and clears the error; a `text/` file previews its text (null if reading fails), another file its size, and no file leaves the preview |
| EncryptFilePage.EncryptFilePage.HandleEncryptAndUpload | src/components/EncryptFile.jsx:94-103 | on success it navigates to the success page with the hook's CID; on failure there is no navigation and the error is the bare message or "Unknown error" |
| DecryptFilePage.InitialCid | src/components/DecryptFile.jsx:41-43 | the initial CID is the navigation state's CID, or empty |
| DecryptFilePage.BindThree | src/components/DecryptFile.jsx:107-113 | a three-parameter function receives the first three arguments in order |
| DecryptFilePage.DecryptFileArgumentShift | src/components/DecryptFile.jsx:107-113 | the hook gets the archive bytes as its Lit client and the PKP as its session signatures, and never a Lit client |
| DecryptFilePage.AuthMethodNeverReachesDecrypt | src/components/DecryptFile.jsx:107-113 | what is retrieved does not depend on the auth method |
| DecryptFilePage.DecryptFilePage.constructor | src/components/DecryptFile.jsx:40-47 | the page starts with the initial CID and no delegation |
| DecryptFilePage.DecryptFilePage.SetCid | src/components/DecryptFile.jsx:219 | records the CID and nothing else |
| DecryptFilePage.DecryptFilePage.OnDelegationChange | src/components/DecryptFile.jsx:67-86 | resets the derived state; the delegation counts as loaded exactly when it is non-empty and the hook's load succeeds; it is kept for display only when parsing succeeds; the buttons then need a CID and a loaded delegation |
| DecryptFilePage.DecryptFilePage.DecryptAs | src/components/DecryptFile.jsx:98-113 | a Lit client or parse failure rejects with the hook untouched; an archive error is stored as the Error object itself and decryption is skipped; otherwise the view is the hook's decryption of the shifted arguments |
| DecryptFilePage.DecryptFilePage.HandleDecrypt | src/components/DecryptFile.jsx:94-114 | clears the view first, then decrypts as the primary PKP; an archive error is stored as the Error object itself, over a cleared view |
| DecryptFilePage.DecryptFilePage.HandleRecoveryDecrypt | src/components/DecryptFile.jsx:116-127 | decrypts as the recovery PKP without clearing; an early rejection leaves the hook untouched; an archive error is stored as the Error object itself and the URL and content stay |
| UploadFilePage.UploadFilePage.constructor | src/components/UploadFile.jsx:5-7 | the page starts at step 1 with no delegation or file |
| UploadFilePage.UploadFilePage.HandleDelegationChange | src/components/UploadFile.jsx:15-18 | records the text and clears the error |
| UploadFilePage.UploadFilePage.HandleLoadDelegation | src/components/UploadFile.jsx:20-27 | step 2 exactly when the load succeeds, with the hook's space set; a failure keeps the step and the prefixed error; the buttons then depend only on input (lines 63, 76) |
| UploadFilePage.UploadFilePage.HandleFileChange | src/components/UploadFile.jsx:30-33 | records the selection and clears the error |
| UploadFilePage.UploadFilePage.HandleEncryptAndUpload | src/components/UploadFile.jsx:36-43 | step 3 exactly when the upload succeeds; the CID panel (line 83) then always shows, because the stored CID is truthy, and never shows after a failure |
| UploadSuccessPage.RedirectEffect | src/components/UploadSuccess.jsx:9-13 | the page redirects to `/upload` exactly when the CID is missing or empty |
| UploadSuccessPage.RenderedCid | src/components/UploadSuccess.jsx:15-17 | the page renders only with a non-empty CID |
| UploadSuccessPage.GatewayUrl | src/components/UploadSuccess.jsx:70 | the link is the gateway prefix followed by the CID |
| UploadSuccessPage.GatewayUrlRoundTrip | src/components/UploadSuccess.jsx:70 | the CID can be read back from its gateway link |
| UploadSuccessPage.GatewayUrlInjective | src/components/UploadSuccess.jsx:70 | distinct CIDs give distinct links |
| UploadSuccessPage.GoToDecrypt | src/components/UploadSuccess.jsx:19-21 | navigates to `/decrypt` carrying the CID |
| UploadSuccessPage.ForwardedCidBecomesInitialCid | src/components/UploadSuccess.jsx:19-21 | a shown CID does not redirect, and it arrives unchanged as the decrypt page's initial CID |

## Left out

- Asynchrony and interleaving: every `await` completes before the next step, and two handlers never overlap. `loading` is only seen before and after an operation, never during one.
- EncryptedUpload.EncryptedUploadHook.LoadDelegation: does not state that `loading` is true while the call is pending, because the model has no intermediate state to observe.
- EncryptedUpload.EncryptedUploadHook.EncryptAndUpload: does not state that `loading` is true while the call is pending, for the same reason.
- EncryptedUpload.CidOf: when `link.cid` is falsy, the hook stores and returns the link object itself, and the model stores its string form instead. EncryptFile converts the value with `.toString()` before navigating, so nothing changes there. But UploadFile renders the stored value directly as `<code>{cid}</code>` (src/components/UploadFile.jsx:86). Whether React can render that object is not modelled; only the panel's condition is.
- CryptoAdapter.ByteStream.Read: never waits for a chunk. A pending read on an open, empty stream is excluded by its precondition, because every stream the adapter drains has already been closed or errored.
- AES-GCM itself, random number generation, and the Storacha, ucanto, CAR and Lit SDK internals are not part of this model. Their results are parameters, and the round trip assumes only that decryption inverts encryption.
- Text decoding (`TextDecoder`, `Blob.text`, `FileReader.readAsText`), `atob`, `decodeURIComponent` and `JSON.parse` are parameters. The email proof assumes decoding of ASCII percent escapes, and nothing about UTF-8.
- The size summary of a binary file records the byte count, not the floating-point "x.xx KB" text.
- `URL.createObjectURL` is modelled as an opaque URL of the content.
- The rejection of `content.text()` for a text content object is not modelled; it would be reported like any other failure.
- Errors from `Proof.parse` on the display path in DecryptFile are only logged, so the model drops them.
- The DecryptFile mount effect (src/components/DecryptFile.jsx:88-91) is not modelled. It parses the agent key with `Signer.parse` and records its DID for display. With the key unset, that parse throws on mount, so the hook's "Agent private key not set" path is reachable in the model but not from this page.
- The auth context's mount effect that creates the Lit client (src/context/AuthContext.jsx:38-49) is not modelled. It caches the client in a ref, and on failure it stores the thrown error in the context's `error`, which the model does not track on this path.
- A rendered Error object: the decrypt page stores the archive's Error object in the hook's error state, as the source does. Whether React can render that object inside the error panel is not modelled.
- `src/utils/lit.js`, `useMintPKP`, the Google and Stytch OAuth redirect hooks, and the remaining components (Login, PKPDetails, DelegationDetails, Modal, LogoutButton, App routing) are not part of this model. Their results enter as parameters (the Lit client, the minted PKP, the OAuth method).
- Console logging, styling and rendering other than the enabled/disabled buttons and whether the CID panel shows.
