/**
 Attachments: cutting a file into sealed chunks, the three validators the chunks meet on
 their way, and putting the file together again.

 AES-GCM is ideal: a sealed chunk is its key, nonce, associated data and plaintext, and
 is 16 bytes longer than the plaintext. The file digest is injective.
 */
module Attachments {
  import opened Base64
  import opened Prelude

  type Key = nat

  const CHUNK_SIZE := 65536
  const MAX_SIZE := 25 * 1024 * 1024

  datatype Sealed = Sealed(key: Key, nonce: Bytes, aad: Bytes, plaintext: Bytes) {
    function Length(): nat {
      |plaintext| + 16
    }
  }

  datatype Chunk = Chunk(nonce: Bytes, ciphertext: Sealed)

  datatype Manifest = Manifest(attachmentId: Bytes, filename: string, mimeType: string, totalSize: nat, chunkCount: nat,
                               chunkNonces: seq<Bytes>, digest: Bytes, key: Key)

  datatype Failure = TooLarge | InvalidManifest | Unavailable | NonceMismatch | BadCiphertext | BadDigest | BadSize

  function Min(a: nat, b: nat): nat {
    if a <= b then a else b
  }

  /** `Math.ceil(n / CHUNK_SIZE) || 1`. */
  function ChunkCount(n: nat): nat {
    var ceil := (n + CHUNK_SIZE - 1) / CHUNK_SIZE;
    if ceil == 0 then 1 else ceil
  }

  function Slice(file: Bytes, i: nat): Bytes
    requires i * CHUNK_SIZE <= |file|
  {
    file[i * CHUNK_SIZE..Min(i * CHUNK_SIZE + CHUNK_SIZE, |file|)]
  }

  // ----- associated data -----

  const TWO32 := 0x1_0000_0000

  /** writeUInt32BE. */
  function U32(n: nat): (b: Bytes)
    requires n < TWO32
    ensures |b| == 4
  {
    [n / 0x100_0000, n / 0x1_0000 % 256, n / 256 % 256, n % 256]
  }

  function Aad(id: Bytes, index: nat, count: nat): (aad: Bytes)
    requires |id| == 16 && index < TWO32 && count < TWO32
    ensures |aad| == 28
  {
    id + U32(index) + U32(count) + U32(1)
  }

  method WriteU32(buffer: array<Byte>, n: nat, at: nat)
    requires n < TWO32 && at + 4 <= buffer.Length
    modifies buffer
    ensures buffer[..] == old(buffer[..at]) + U32(n) + old(buffer[at + 4..])
  {
    buffer[at] := n / 0x100_0000;
    buffer[at + 1] := n / 0x1_0000 % 256;
    buffer[at + 2] := n / 256 % 256;
    buffer[at + 3] := n % 256;
  }

  /** Fills a buffer of 28 zeros field by field. */
  method MakeAad(id: Bytes, index: nat, count: nat) returns (aad: array<Byte>)
    requires |id| == 16 && index < TWO32 && count < TWO32
    ensures fresh(aad) && aad[..] == Aad(id, index, count)
  {
    aad := new Byte[28](_ => 0);
    for i := 0 to 16
      invariant forall k :: 0 <= k < i ==> aad[k] == id[k]
    {
      aad[i] := id[i];
    }
    assert aad[..16] == id;
    WriteU32(aad, index, 16);
    assert aad[..20] == id + U32(index);
    WriteU32(aad, count, 20);
    assert aad[..24] == id + U32(index) + U32(count);
    WriteU32(aad, 1, 24);
    assert aad[..] == aad[..24] + U32(1);
  }

  lemma U32Injective(m: nat, n: nat)
    requires m < TWO32 && n < TWO32 && U32(m) == U32(n)
    ensures m == n
  {
    assert U32(m)[0] == U32(n)[0] && U32(m)[1] == U32(n)[1] && U32(m)[2] == U32(n)[2] && U32(m)[3] == U32(n)[3];
    FromU32(m);
    FromU32(n);
  }

  lemma FromU32(n: nat)
    requires n < TWO32
    ensures n == (((U32(n)[0] as int) * 256 + U32(n)[1]) * 256 + U32(n)[2]) * 256 + U32(n)[3]
  {
  }

  /** The associated data names attachment, index and count without ambiguity. */
  lemma AadInjective(a: Bytes, i: nat, m: nat, b: Bytes, j: nat, n: nat)
    requires |a| == 16 && |b| == 16 && i < TWO32 && j < TWO32 && m < TWO32 && n < TWO32
    requires Aad(a, i, m) == Aad(b, j, n)
    ensures a == b && i == j && m == n
  {
    hide U32;
    var x, y := Aad(a, i, m), Aad(b, j, n);
    assert x[..16] == a && x[16..20] == U32(i) && x[20..24] == U32(m);
    assert y[..16] == b && y[16..20] == U32(j) && y[20..24] == U32(n);
    U32Injective(i, j);
    U32Injective(m, n);
  }

  // ----- the validators -----

  /** The upload route of the relay. */
  predicate RelayAcceptsBlob(chunkCount: int, totalSize: int) {
    && 0 < chunkCount <= 400 && 0 <= totalSize <= MAX_SIZE
    && chunkCount == (if totalSize == 0 then 1 else (totalSize + 65535) / 65536)
  }

  /** The spool of the Tor modes. */
  predicate SpoolAcceptsBlob(chunkCount: int, totalSize: int) {
    !(chunkCount < 1 || chunkCount > 400 || totalSize < 0 || totalSize > MAX_SIZE
      || chunkCount != (var ceil := (totalSize + 65535) / 65536; if ceil < 1 then 1 else ceil))
  }

  predicate RelayAcceptsChunk(blobChunks: int, index: int, nonceLength: int, length: int) {
    index >= 0 && nonceLength == 12 && 16 <= length <= 65536 + 16 && index < blobChunks
  }

  predicate SpoolAcceptsChunk(blobChunks: int, index: int, nonceLength: int, length: int) {
    !(index < 0 || index >= blobChunks || nonceLength != 12 || length < 16 || length > 65552)
  }

  /** The manifest schema of the receiver. */
  predicate ManifestAccepted(m: Manifest) {
    && |m.attachmentId| == 16 && 1 <= |m.filename| <= 255 && |m.mimeType| <= 255
    && m.totalSize <= MAX_SIZE && 1 <= m.chunkCount <= 400 && |m.chunkNonces| <= 400
    && (forall i :: 0 <= i < |m.chunkNonces| ==> |m.chunkNonces[i]| == 12)
    && (var ceil := (m.totalSize + CHUNK_SIZE - 1) / CHUNK_SIZE; m.chunkCount == if ceil >= 1 then ceil else 1)
    && |m.chunkNonces| == m.chunkCount
  }

  /** The one schema, which sender and receiver both parse with. */
  function ParseManifest(m: Manifest): (r: Result<Manifest, Failure>)
    ensures r.Ok? ==> r.value == m
  {
    if ManifestAccepted(m) then Ok(m) else Err(InvalidManifest)
  }

  /** Relay and spool accept the same blobs, and then the same chunks. */
  lemma ValidatorsAgree(chunkCount: int, totalSize: int, index: int, nonceLength: int, length: int)
    ensures RelayAcceptsBlob(chunkCount, totalSize) <==> SpoolAcceptsBlob(chunkCount, totalSize)
    ensures RelayAcceptsChunk(chunkCount, index, nonceLength, length) <==>
              SpoolAcceptsChunk(chunkCount, index, nonceLength, length)
  {
  }

  function Kept(filename: string): string {
    if filename == "" then "" else
    var before, c := Kept(filename[..|filename| - 1]), filename[|filename| - 1];
    if c < ' ' || c == 127 as char then before else before + [if c in "\\/:*?\"<>|" then '_' else c]
  }

  function Sanitized(filename: string): (s: string)
    ensures |s| <= 255
  {
    var kept := Kept(filename);
    if |kept| <= 255 then kept else kept[..255]
  }

  const UNSAFE := "\\/:*?\"<>|"

  ghost predicate IsSafe(s: string) {
    forall i :: 0 <= i < |s| ==> !IsControl(s[i]) && s[i] !in UNSAFE
  }

  predicate IsControl(c: char) {
    c < ' ' || c as int == 0x7F
  }

  ghost predicate HasVisible(filename: string) {
    exists i :: 0 <= i < |filename| && !IsControl(filename[i])
  }

  /**
   Every name becomes safe for a file system, a safe and short one stays what it is, and
   nothing is left exactly of the names that are nothing but control characters.
   */
  lemma SanitizedIsSafe(filename: string)
    ensures IsSafe(Sanitized(filename)) && |Sanitized(filename)| <= 255
    ensures IsSafe(filename) ==> Sanitized(filename) == filename[..Min(|filename|, 255)]
    ensures Sanitized(filename) == "" <==> forall i :: 0 <= i < |filename| ==> IsControl(filename[i])
  {
    KeptIsSafe(filename);
    NothingKept(filename);
    if IsSafe(filename) { assert filename[..|filename|] == filename; }
  }

  lemma {:induction false} NothingKept(filename: string)
    ensures Kept(filename) == "" <==> forall i :: 0 <= i < |filename| ==> IsControl(filename[i])
  {
    if filename != "" {
      NothingKept(filename[..|filename| - 1]);
      assert forall i :: 0 <= i < |filename| - 1 ==> filename[..|filename| - 1][i] == filename[i];
    }
  }

  lemma OneSafe(before: string, c: char)
    requires IsSafe(before)
    ensures !IsControl(c) ==> IsSafe(before + [if c in UNSAFE then '_' else c])
    ensures IsSafe(before + [c]) ==> !IsControl(c) && c !in UNSAFE
  {
    assert (before + [c])[|before|] == c;
  }

  lemma {:induction false} KeptIsSafe(filename: string)
    ensures IsSafe(Kept(filename))
    ensures IsSafe(filename) ==> Kept(filename) == filename
  {
    if filename != "" {
      var before, c := filename[..|filename| - 1], filename[|filename| - 1];
      assert filename == before + [c];
      assert IsSafe(filename) ==> IsSafe(before);
      KeptIsSafe(before);
      hide IsSafe;
      OneSafe(Kept(before), c);
      if IsSafe(filename) { OneSafe(before, c); }
    }
  }

  // ----- encrypting and decrypting -----

  function SealedChunk(file: Bytes, id: Bytes, key: Key, nonces: seq<Bytes>, i: nat): Chunk
    requires |id| == 16 && i < |nonces| < TWO32 && i * CHUNK_SIZE <= |file|
  {
    Chunk(nonces[i], Sealed(key, nonces[i], Aad(id, i, |nonces|), Slice(file, i)))
  }

  /** The encryption loop; `nonces` are drawn at random, one per chunk. */
  method EncryptChunks(file: Bytes, id: Bytes, key: Key, nonces: seq<Bytes>) returns (chunks: seq<Chunk>)
    requires |id| == 16 && |nonces| == ChunkCount(|file|) < TWO32
    ensures |chunks| == |nonces|
    ensures forall i :: 0 <= i < |chunks| ==>
              i * CHUNK_SIZE <= |file| && chunks[i] == SealedChunk(file, id, key, nonces, i)
  {
    var count := |nonces|;
    chunks := [];
    for i := 0 to count
      invariant |chunks| == i
      invariant forall k :: 0 <= k < i ==>
                k * CHUNK_SIZE <= |file| && chunks[k] == SealedChunk(file, id, key, nonces, k)
    {
      StartsInside(|file|, i);
      var start := i * CHUNK_SIZE;
      var end := Min(start + CHUNK_SIZE, |file|);
      var aad := MakeAad(id, i, count);
      chunks := chunks + [Chunk(nonces[i], Sealed(key, nonces[i], aad[..], file[start..end]))];
    }
  }

  lemma StartsInside(n: nat, i: nat)
    requires i < ChunkCount(n)
    ensures i * CHUNK_SIZE <= n
  {
  }

  /** GCM decryption. */
  function Open(c: Sealed, key: Key, nonce: Bytes, aad: Bytes): Option<Bytes> {
    if c.key == key && c.nonce == nonce && c.aad == aad then Some(c.plaintext) else None
  }

  /** The parts decrypted from the first `k` served chunks. */
  function Joined(m: Manifest, served: seq<Chunk>, k: nat): Option<Bytes>
    requires k <= |served| && k <= |m.chunkNonces| < TWO32 && |m.attachmentId| == 16
  {
    if k == 0 then Some([]) else
    var before := Joined(m, served, k - 1);
    var part := Open(served[k - 1].ciphertext, m.key, m.chunkNonces[k - 1], Aad(m.attachmentId, k - 1,
        |m.chunkNonces|));
    if before.None? || served[k - 1].nonce != m.chunkNonces[k - 1] || part.None? then None
    else Some(before.value + part.value)
  }

  /** The download loop; `served` is what the relay or the peer answers, index by index. */
  method Download(m: Manifest, served: seq<Chunk>) returns (r: Result<Bytes, Failure>)
    ensures r.Ok? <==> && ManifestAccepted(m) && |served| >= m.chunkCount && Joined(m, served, m.chunkCount).Some?
                       && m.digest == Joined(m, served, m.chunkCount).value && |m.digest| == m.totalSize
    ensures r.Ok? ==> r.value == m.digest
  {
    if ParseManifest(m).Err? { return Err(InvalidManifest); }
    var parts: Bytes := [];
    for i := 0 to m.chunkCount
      invariant i <= |served| && Joined(m, served, i) == Some(parts)
    {
      if i >= |served| { return Err(Unavailable); }
      if m.chunkNonces[i] != served[i].nonce {
        NothingAfter(m, served, i);
        return Err(NonceMismatch);
      }
      var aad := MakeAad(m.attachmentId, i, m.chunkCount);
      var part := Open(served[i].ciphertext, m.key, m.chunkNonces[i], aad[..]);
      if part.None? {
        NothingAfter(m, served, i);
        return Err(BadCiphertext);
      }
      parts := parts + part.value;
    }
    if m.digest != parts { return Err(BadDigest); }
    if |parts| != m.totalSize { return Err(BadSize); }
    r := Ok(parts);
  }

  /** A part that fails, fails the whole. */
  lemma NothingAfter(m: Manifest, served: seq<Chunk>, i: nat)
    requires i < |m.chunkNonces| < TWO32 && i < |served| && |m.attachmentId| == 16 && Joined(m, served, i + 1).None?
    ensures |m.chunkNonces| <= |served| ==> Joined(m, served, |m.chunkNonces|).None?
  {
    var k := i + 1;
    while k < |m.chunkNonces| && k < |served|
      invariant k <= |m.chunkNonces| && k <= |served| && Joined(m, served, k).None?
    {
      k := k + 1;
    }
  }

  /** Each chunk in its place, with its nonce, sealed under the key for exactly this place. */
  ghost predicate InPlace(m: Manifest, c: Chunk, i: nat)
    requires i < |m.chunkNonces| < TWO32 && |m.attachmentId| == 16
  {
    && c.nonce == m.chunkNonces[i] && c.ciphertext.nonce == m.chunkNonces[i] && c.ciphertext.key == m.key
    && c.ciphertext.aad == Aad(m.attachmentId, i, |m.chunkNonces|)
  }

  function Plaintexts(served: seq<Chunk>): Bytes {
    if served == [] then [] else Plaintexts(served[..|served| - 1]) + served[|served| - 1].ciphertext.plaintext
  }

  /** What is put together is what every chunk in its place contains. */
  lemma {:induction false} JoinedExactly(m: Manifest, served: seq<Chunk>, k: nat)
    requires k <= |served| && k <= |m.chunkNonces| < TWO32 && |m.attachmentId| == 16
    ensures Joined(m, served, k) == if forall i :: 0 <= i < k ==> InPlace(m, served[i], i) then Some(Plaintexts(served[..k])) else None
  {
    hide Aad;
    if k > 0 {
      JoinedExactly(m, served, k - 1);
      assert served[..k][..k - 1] == served[..k - 1];
      assert (forall i :: 0 <= i < k ==> InPlace(m, served[i], i)) <==>
             (forall i :: 0 <= i < k - 1 ==> InPlace(m, served[i], i)) && InPlace(m, served[k - 1], k - 1);
    }
  }

  // ----- the round trip -----

  function ManifestOf(file: Bytes, filename: string, mimeType: string, id: Bytes, key: Key,
      nonces: seq<Bytes>): Manifest {
    Manifest(id, Sanitized(filename), mimeType, |file|, ChunkCount(|file|), nonces, file, key)
  }

  ghost predicate IsEncryption(file: Bytes, id: Bytes, key: Key, nonces: seq<Bytes>, chunks: seq<Chunk>) {
    && |id| == 16 && |chunks| == |nonces| == ChunkCount(|file|) < TWO32 && (forall i :: 0 <= i < |nonces| ==>
              |nonces[i]| == 12)
    && forall i :: 0 <= i < |chunks| ==> i * CHUNK_SIZE <= |file| && chunks[i] == SealedChunk(file, id, key, nonces, i)
  }

  /** Up to 25 MiB the count stays in range, and every chunk passes every validator. */
  lemma EverythingIsAccepted(file: Bytes, id: Bytes, key: Key, nonces: seq<Bytes>, chunks: seq<Chunk>, i: nat)
    requires IsEncryption(file, id, key, nonces, chunks) && i < |chunks|
    requires |file| <= MAX_SIZE
    ensures 1 <= ChunkCount(|file|) <= 400
    ensures RelayAcceptsBlob(|chunks|, |file|) && SpoolAcceptsBlob(|chunks|, |file|)
    ensures RelayAcceptsChunk(|chunks|, i, |chunks[i].nonce|, chunks[i].ciphertext.Length())
    ensures SpoolAcceptsChunk(|chunks|, i, |chunks[i].nonce|, chunks[i].ciphertext.Length())
  {
    ValidatorsAgree(|chunks|, |file|, i, |chunks[i].nonce|, chunks[i].ciphertext.Length());
    assert |Slice(file, i)| <= CHUNK_SIZE;
  }

  lemma OneMoreSlice(file: Bytes, k: nat)
    requires k * CHUNK_SIZE <= |file|
    ensures file[..Min(k * CHUNK_SIZE, |file|)] + Slice(file, k) == file[..Min((k + 1) * CHUNK_SIZE, |file|)]
  {
  }

  lemma {:induction false} JoinedSoFar(file: Bytes, m: Manifest, chunks: seq<Chunk>, k: nat)
    requires IsEncryption(file, m.attachmentId, m.key, m.chunkNonces, chunks) && k <= |chunks|
    ensures Joined(m, chunks, k) == Some(file[..Min(k * CHUNK_SIZE, |file|)])
  {
    hide Aad, Slice, ChunkCount;
    if k > 0 {
      JoinedSoFar(file, m, chunks, k - 1);
      assert chunks[k - 1] == SealedChunk(file, m.attachmentId, m.key, m.chunkNonces, k - 1);
      OneMoreSlice(file, k - 1);
    }
  }

  /** Chunking and reassembling is the identity. */
  lemma RoundTrip(file: Bytes, m: Manifest, chunks: seq<Chunk>)
    requires IsEncryption(file, m.attachmentId, m.key, m.chunkNonces, chunks)
    ensures Joined(m, chunks, |chunks|) == Some(file)
  {
    JoinedSoFar(file, m, chunks, |chunks|);
    assert |chunks| * CHUNK_SIZE >= |file|;
    assert file[..|file|] == file;
  }

  lemma {:induction false} JoinedParts(m: Manifest, served: seq<Chunk>, k: nat, i: nat)
    requires i < k <= |served| && k <= |m.chunkNonces| < TWO32 && |m.attachmentId| == 16 && Joined(m, served, k).Some?
    ensures served[i].nonce == m.chunkNonces[i] && served[i].ciphertext.aad == Aad(m.attachmentId, i, |m.chunkNonces|)
  {
    if i < k - 1 { JoinedParts(m, served, k - 1, i); }
  }

  /** A chunk served in another one's place is never accepted, whatever the nonces are. */
  lemma MovedChunkIsRejected(file: Bytes, m: Manifest, chunks: seq<Chunk>, served: seq<Chunk>, i: nat, j: nat)
    requires IsEncryption(file, m.attachmentId, m.key, m.chunkNonces, chunks) && |served| >= |chunks|
    requires i < |chunks| && j < |chunks| && i != j && served[i].ciphertext == chunks[j].ciphertext
    ensures Joined(m, served, |chunks|).None?
  {
    if Joined(m, served, |chunks|).Some? {
      JoinedParts(m, served, |chunks|, i);
      AadInjective(m.attachmentId, i, |chunks|, m.attachmentId, j, |chunks|);
      assert false;
    }
  }

  // ----- sending -----

  /** What the schema asks of a manifest this sender wrote. */
  lemma WrittenManifestFits(file: Bytes, filename: string, mimeType: string, id: Bytes, key: Key, nonces: seq<Bytes>)
    requires |id| == 16 && |nonces| == ChunkCount(|file|) && forall i :: 0 <= i < |nonces| ==> |nonces[i]| == 12
    ensures ManifestAccepted(ManifestOf(file, filename, mimeType, id, key, nonces)) <==>
            |file| <= MAX_SIZE && |mimeType| <= 255 && Kept(filename) != ""
  {
  }

  /**
   Encrypting and uploading a file, and then committing a message with its manifest. The
   first refuses files over 25 MiB before any chunk; the second parses the manifest with
   the receiver's schema before anything is encrypted or queued. A message is committed
   exactly when all three limits hold. A file with a type that is too long, or a name of
   which nothing is left without its control characters, is uploaded and then not sent.
   */
  method SendFile(file: Bytes, filename: string, mimeType: string, id: Bytes, key: Key, nonces: seq<Bytes>)
    returns (uploaded: seq<Chunk>, sent: Result<Manifest, Failure>)
    requires |id| == 16 && |nonces| == ChunkCount(|file|) < TWO32 && forall i :: 0 <= i < |nonces| ==> |nonces[i]| == 12
    ensures sent.Ok? <==> |file| <= 26214400 && |mimeType| <= 255 && HasVisible(filename)
    ensures sent.Ok? ==> sent.value == ManifestOf(file, filename, mimeType, id, key, nonces) && ManifestAccepted(sent.value)
    ensures if |file| <= MAX_SIZE then IsEncryption(file, id, key, nonces, uploaded) else uploaded == []
  {
    if |file| > MAX_SIZE { return [], Err(TooLarge); }
    NothingKept(filename);
    uploaded := EncryptChunks(file, id, key, nonces);
    WrittenManifestFits(file, filename, mimeType, id, key, nonces);
    sent := ParseManifest(ManifestOf(file, filename, mimeType, id, key, nonces));
  }

  /**
   End to end, for every file, name and type: what is sent is received. The receiver's
   parse never refuses a committed manifest, and the uploaded chunks give back the file.
   */
  method SendThenDownload(file: Bytes, filename: string, mimeType: string, id: Bytes, key: Key, nonces: seq<Bytes>)
    returns (sent: Result<Manifest, Failure>, received: Result<Bytes, Failure>)
    requires |id| == 16 && |nonces| == ChunkCount(|file|) < TWO32 && forall i :: 0 <= i < |nonces| ==> |nonces[i]| == 12
    ensures sent.Ok? ==> received == Ok(file)
    ensures sent.Ok? <==> |file| <= 26214400 && |mimeType| <= 255 && HasVisible(filename)
  {
    var uploaded;
    uploaded, sent := SendFile(file, filename, mimeType, id, key, nonces);
    if sent.Err? { return sent, Err(sent.error); }
    RoundTrip(file, sent.value, uploaded);
    received := Download(sent.value, uploaded);
  }
}
