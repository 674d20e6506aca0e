/** The whole-buffer AES-GCM adapter (browser-crypto-adapter.js).

    The adapter drains its input stream into one buffer, runs AES-GCM once on
    that buffer, and produces an output stream that carries exactly one chunk
    and is then closed. AES-GCM itself, key import and the random source are
    WebCrypto's; they are parameters or nondeterministic choices here. */
module CryptoAdapter {
  import opened Common

  const ENCRYPTION_ALGORITHM := "AES-GCM"
  /** Key length in bits. */
  const KEY_LENGTH := 256
  /** IV length in bytes: the 96-bit IV that NIST SP 800-38D section 5.2.1.1 recommends. */
  const IV_LENGTH := 12
  /** The rejection WebCrypto's `importKey` gives for a raw AES key of the wrong size. */
  const IMPORT_KEY_ERROR := "DataError"

  datatype KeyUsage = EncryptUsage | DecryptUsage

  /** A WebCrypto `CryptoKey` for AES, with the raw bytes it was made from. */
  datatype CryptoKey = CryptoKey(raw: seq<byte>, algorithm: string, extractable: bool, usages: set<KeyUsage>)

  /** `window.crypto.subtle.encrypt` and `decrypt` for AES-GCM, each taking the
      raw key, the IV and the input buffer; a Failure is a rejected promise
      (for decryption, among others, a tag that does not verify). */
  datatype SubtleCrypto = SubtleCrypto(
    encrypt: (seq<byte>, seq<byte>, seq<byte>) -> Result<seq<byte>>,
    decrypt: (seq<byte>, seq<byte>, seq<byte>) -> Result<seq<byte>>)

  /** Authenticated decryption undoes authenticated encryption under the same
      key and IV: the correctness of AES-GCM, assumed and not proved here. */
  ghost predicate Inverts(subtle: SubtleCrypto)
  {
    forall key, iv, plain ::
      subtle.encrypt(key, iv, plain).Success? ==>
        subtle.decrypt(key, iv, subtle.encrypt(key, iv, plain).value) == Success(plain)
  }

  /** `importKey('raw', raw, { name: 'AES-GCM' }, false, ['encrypt', 'decrypt'])`:
      AES accepts only 128-, 192- and 256-bit raw keys. */
  function ImportKey(raw: seq<byte>): (r: Result<CryptoKey>)
    ensures r.Success? <==> |raw| * 8 in {128, 192, 256}
    ensures r.Success? ==> r.value.raw == raw && !r.value.extractable
    ensures r.Failure? ==> r.message == IMPORT_KEY_ERROR
  {
    if |raw| in {16, 24, 32} then
      Success(CryptoKey(raw, ENCRYPTION_ALGORITHM, false, {EncryptUsage, DecryptUsage}))
    else
      Failure(IMPORT_KEY_ERROR)
  }

  /** `window.crypto.getRandomValues(new Uint8Array(length))`: any bytes at all,
      exactly `length` of them. */
  method GetRandomValues(length: nat) returns (values: seq<byte>)
    ensures |values| == length
  {
    values := [];
    while |values| < length
      invariant |values| <= length
    {
      var b: byte := *;
      values := values + [b];
    }
  }

  datatype StreamState = Readable | Closed | Errored(reason: string)

  /** What `reader.read()` resolves to, or the reason it rejects with. */
  datatype ReadResult = Chunk(value: seq<byte>) | Done | ReadFailed(reason: string)

  /** What a read returns once a finished stream has no chunk left. */
  function EndOfStream(state: StreamState): (r: ReadResult)
    requires state != Readable
    ensures r.Done? <==> state.Closed?
    ensures state.Errored? ==> r == ReadFailed(state.reason)
  {
    if state.Closed? then Done else ReadFailed(state.reason)
  }

  /** A ReadableStream of byte chunks, together with its controller
      (`enqueue`, `close`, `error`) and its default reader (`read`). */
  class ByteStream {
    var queue: seq<seq<byte>>
    var state: StreamState

    /** Erroring a stream discards what was queued. */
    ghost predicate Valid()
      reads this
    {
      state.Errored? ==> queue == []
    }

    /** A stream whose underlying source has not started yet. */
    constructor ()
      ensures Valid() && queue == [] && state == Readable
    {
      queue := [];
      state := Readable;
    }

    /** `blob.stream()`: every part of the blob is queued and the stream is closed. */
    constructor OfParts(parts: seq<seq<byte>>)
      ensures Valid() && queue == parts && state == Closed
    {
      queue := parts;
      state := Closed;
    }

    method Enqueue(chunk: seq<byte>)
      requires Valid() && state == Readable
      modifies this
      ensures Valid() && queue == old(queue) + [chunk] && state == Readable
    {
      queue := queue + [chunk];
    }

    method Close()
      requires Valid() && state == Readable
      modifies this
      ensures Valid() && queue == old(queue) && state == Closed
    {
      state := Closed;
    }

    method Error(reason: string)
      requires Valid() && state == Readable
      modifies this
      ensures Valid() && queue == [] && state == Errored(reason)
    {
      queue := [];
      state := Errored(reason);
    }

    /** `reader.read()`. Every underlying source in this application runs to
        completion before its stream is read, so a read never has to wait. */
    method Read() returns (r: ReadResult)
      requires Valid() && (state != Readable || queue != [])
      modifies this
      ensures Valid() && state == old(state)
      ensures old(queue) != [] ==> r == Chunk(old(queue)[0]) && queue == old(queue)[1..]
      ensures old(queue) == [] ==> queue == [] && r == EndOfStream(state)
    {
      if queue != [] {
        r := Chunk(queue[0]);
        queue := queue[1..];
      } else {
        r := EndOfStream(state);
      }
    }
  }

  /** The `while (!(await reader.read()).done) chunks.push(value)` loop: it
      collects every queued chunk, in order, and stops at the end of the stream
      or with the reason a read rejected with. */
  method ReadAll(reader: ByteStream) returns (chunks: seq<seq<byte>>, failure: Option<string>)
    requires reader.Valid() && reader.state != Readable
    modifies reader
    ensures reader.Valid() && reader.queue == [] && reader.state == old(reader.state)
    ensures chunks == old(reader.queue)
    ensures failure == if reader.state.Errored? then Some(reader.state.reason) else None
  {
    chunks := [];
    failure := None;
    while true
      invariant reader.Valid() && reader.state == old(reader.state)
      invariant chunks + reader.queue == old(reader.queue)
      invariant failure == None
      decreases |reader.queue|
    {
      var r := reader.Read();
      match r
      case Done =>
        return;
      case ReadFailed(reason) =>
        failure := Some(reason);
        return;
      case Chunk(value) =>
        chunks := chunks + [value];
    }
  }

  /** What a single-chunk output stream ends up holding. */
  datatype StreamOutcome = Delivered(chunk: seq<byte>) | Aborted(reason: string)

  ghost predicate Holds(s: ByteStream, outcome: StreamOutcome)
    reads s
  {
    match outcome
    case Delivered(c) => s.queue == [c] && s.state == Closed
    case Aborted(e) => s.queue == [] && s.state == Errored(e)
  }

  /** What `encryptStream`'s output stream holds: the AES-GCM encryption of the
      in-order concatenation of all input parts. */
  function EncryptedOutcome(subtle: SubtleCrypto, key: seq<byte>, iv: seq<byte>, parts: seq<seq<byte>>): StreamOutcome
  {
    match subtle.encrypt(key, iv, Concat(parts))
    case Success(c) => Delivered(c)
    case Failure(e) => Aborted(e)
  }

  /** What `decryptStream`'s output stream holds, given what the encrypted
      input stream still had queued and how it ended. */
  function DecryptedOutcome(subtle: SubtleCrypto, key: seq<byte>, iv: seq<byte>,
                            input: seq<seq<byte>>, inputState: StreamState): StreamOutcome
  {
    if inputState.Errored? then Aborted(inputState.reason)
    else match subtle.decrypt(key, iv, Concat(input))
      case Success(p) => Delivered(p)
      case Failure(e) => Aborted(e)
  }

  /** A blob as the adapter reads it. */
  datatype Blob = Blob(parts: seq<seq<byte>>)

  /** The object `encryptStream` resolves to. */
  datatype EncryptedData = EncryptedData(key: seq<byte>, iv: seq<byte>, encryptedStream: ByteStream)

  /** The adapter has no fields: nothing it generates outlives a call. */
  class BrowserCryptoAdapter {
    constructor ()
    {
    }

    /** `generateKey()`: a fresh, extractable 256-bit AES-GCM key for encryption
        and decryption. */
    method GenerateKey() returns (key: CryptoKey)
      ensures |key.raw| * 8 == KEY_LENGTH
      ensures key.algorithm == ENCRYPTION_ALGORITHM && key.extractable
      ensures key.usages == {EncryptUsage, DecryptUsage}
    {
      var raw := GetRandomValues(256 / 8);
      key := CryptoKey(raw, ENCRYPTION_ALGORITHM, true, {EncryptUsage, DecryptUsage});
    }

    /** `encryptStream(data)`: a fresh 32-byte key and 12-byte IV, and a stream
        holding one chunk, the encryption under exactly that key and IV of all
        of `data`'s bytes in order, after which the stream is closed. */
    method EncryptStream(data: Blob, subtle: SubtleCrypto) returns (r: EncryptedData)
      ensures |r.key| == KEY_LENGTH / 8 && |r.iv| == IV_LENGTH
      ensures r.encryptedStream.Valid()
      ensures Holds(r.encryptedStream, EncryptedOutcome(subtle, r.key, r.iv, data.parts))
    {
      var symmetricKey := GetRandomValues(KEY_LENGTH / 8);
      var initializationVector := GetRandomValues(IV_LENGTH);
      var imported := ImportKey(symmetricKey);
      var cryptoKey := imported.value;

      var reader := new ByteStream.OfParts(data.parts);
      var encryptedStream := new ByteStream();
      // the stream's start(controller)
      // a blob's own stream is closed, never errored, so every read succeeds
      var chunks, _ := ReadAll(reader);
      var plain := Concat(chunks);
      match subtle.encrypt(cryptoKey.raw, initializationVector, plain) {
        case Success(encrypted) =>
          encryptedStream.Enqueue(encrypted);
          encryptedStream.Close();
        case Failure(e) =>
          encryptedStream.Error(e);
      }
      r := EncryptedData(symmetricKey, initializationVector, encryptedStream);
    }

    /** `decryptStream(encryptedData, key, iv)`: nothing is generated; the
        caller's key is imported (rejecting a key of the wrong size before the
        input is touched), the whole input is drained, and the output stream
        holds one chunk, the decryption of the input's bytes in order, and is
        then closed. */
    method DecryptStream(encryptedData: ByteStream, key: seq<byte>, iv: seq<byte>, subtle: SubtleCrypto)
      returns (r: Result<ByteStream>)
      requires encryptedData.Valid() && encryptedData.state != Readable
      modifies encryptedData
      ensures ImportKey(key).Failure? ==>
        r == Failure(ImportKey(key).message) && unchanged(encryptedData)
      ensures ImportKey(key).Success? ==>
        && r.Success? && fresh(r.value) && r.value.Valid()
        && Holds(r.value, DecryptedOutcome(subtle, key, iv, old(encryptedData.queue), old(encryptedData.state)))
        && encryptedData.Valid() && encryptedData.queue == []
    {
      var imported := ImportKey(key);
      if imported.Failure? {
        return Failure(imported.message);
      }
      var cryptoKey := imported.value;
      var output := new ByteStream();
      var chunks, failure := ReadAll(encryptedData);
      if failure.Some? {
        output.Error(failure.value);
      } else {
        var encrypted := Concat(chunks);
        match subtle.decrypt(cryptoKey.raw, iv, encrypted)
        case Success(decrypted) =>
          output.Enqueue(decrypted);
          output.Close();
        case Failure(e) =>
          output.Error(e);
      }
      r := Success(output);
    }
  }

  /** A one-chunk ciphertext decrypts, under the key and IV it was made with,
      to exactly the bytes that were encrypted. */
  lemma {:induction false} OutcomeRoundTrip(subtle: SubtleCrypto, key: seq<byte>, iv: seq<byte>, parts: seq<seq<byte>>)
    requires Inverts(subtle)
    requires EncryptedOutcome(subtle, key, iv, parts).Delivered?
    ensures DecryptedOutcome(subtle, key, iv, [EncryptedOutcome(subtle, key, iv, parts).chunk], Closed)
            == Delivered(Concat(parts))
  {
    var c := EncryptedOutcome(subtle, key, iv, parts).chunk;
    assert [c][..0] == [];
    assert Concat([c]) == c;
  }

  /** Encrypting a blob and decrypting a stream of the stored ciphertext with
      the returned key and IV yields the blob's bytes, as one chunk. */
  method EncryptThenDecrypt(adapter: BrowserCryptoAdapter, data: Blob, subtle: SubtleCrypto)
    returns (encrypted: EncryptedData, decrypted: Result<ByteStream>)
    requires Inverts(subtle)
    ensures encrypted.encryptedStream.state == Closed ==>
      decrypted.Success? && Holds(decrypted.value, Delivered(Concat(data.parts)))
  {
    encrypted := adapter.EncryptStream(data, subtle);
    var stored := new ByteStream.OfParts(encrypted.encryptedStream.queue);
    decrypted := adapter.DecryptStream(stored, encrypted.key, encrypted.iv, subtle);
    if encrypted.encryptedStream.state == Closed {
      OutcomeRoundTrip(subtle, encrypted.key, encrypted.iv, data.parts);
    }
  }
}
