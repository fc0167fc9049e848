/** The encrypted-blob codec: a key derived from the shared secret, and an
    AES-256-GCM blob framed as IV ‖ auth tag ‖ ciphertext and carried as base64.
    The hash, the cipher and base64 are foreign primitives, given as values. */
module Encryption {
  import opened JsValues

  type Bytes = seq<bv8>

  /** Size of the initialisation vector, in bytes. */
  const IvLength: nat := 16
  /** Size of the GCM authentication tag, in bytes. */
  const AuthTagLength: nat := 16
  /** Size of an AES-256 key (and of a SHA-256 digest), in bytes. */
  const KeyLength: nat := 32

  /** What the AES-256-GCM cipher produces: the ciphertext and its tag. */
  datatype Sealed = Sealed(ciphertext: Bytes, tag: Bytes)

  /** The three pieces a blob is cut into before decryption. */
  datatype Parts = Parts(iv: Bytes, tag: Bytes, ciphertext: Bytes)

  /** The foreign primitives the codec calls into.
      - sha256: the digest of the secret's text
      - seal(key, iv, plaintext): AES-256-GCM encryption
      - open(key, iv, tag, ciphertext): AES-256-GCM decryption; None when it throws
      - toBase64 / fromBase64: Buffer's base64 conversions */
  datatype Primitives = Primitives(
    sha256: string -> Bytes,
    seal: (Bytes, Bytes, string) -> Sealed,
    open: (Bytes, Bytes, Bytes, Bytes) -> Option<string>,
    toBase64: Bytes -> string,
    fromBase64: string -> Bytes)

  /** GCM with its default settings always yields a 16-byte tag. */
  ghost predicate TagIsFull(p: Primitives) {
    forall key, iv, pt :: |p.seal(key, iv, pt).tag| == AuthTagLength
  }

  /** Authenticated decryption undoes encryption under the same key and IV. */
  ghost predicate AeadRoundTrips(p: Primitives) {
    forall key, iv, pt ::
      p.open(key, iv, p.seal(key, iv, pt).tag, p.seal(key, iv, pt).ciphertext) == Some(pt)
  }

  /** Decoding base64 undoes encoding. */
  ghost predicate Base64RoundTrips(p: Primitives) {
    forall b :: p.fromBase64(p.toBase64(b)) == b
  }

  /** The base64 text of a non-empty buffer is never the empty string. */
  ghost predicate Base64KeepsNonEmpty(p: Primitives) {
    forall b :: |b| > 0 ==> p.toBase64(b) != ""
  }

  /** A SHA-256 digest is 32 bytes long. */
  ghost predicate DigestIsKeySized(p: Primitives) {
    forall s :: |p.sha256(s)| == KeyLength
  }

  /** All that the codec assumes of its primitives. */
  ghost predicate Sound(p: Primitives) {
    TagIsFull(p) && AeadRoundTrips(p) && Base64RoundTrips(p) &&
    Base64KeepsNonEmpty(p) && DigestIsKeySized(p)
  }

  /** The key: SHA-256 of the secret, computed the same way by both
      directions; it has the 32 bytes AES-256 needs. */
  function DeriveKey(p: Primitives, secret: string): (key: Bytes)
    ensures DigestIsKeySized(p) ==> |key| == KeyLength
  {
    p.sha256(secret)
  }

  /** `Buffer.subarray(start, end)`: both bounds are clamped to the buffer,
      and an end before the start gives the empty buffer. */
  function Subarray(b: Bytes, start: nat, end: nat): (r: Bytes)
    ensures |r| <= |b|
    ensures start <= end <= |b| ==> r == b[start..end]
    ensures start <= |b| <= end ==> r == b[start..]
    ensures |b| <= start ==> r == []
    ensures end < start ==> r == []
  {
    var e := if end < |b| then end else |b|;
    var s := if start < e then start else e;
    b[s..e]
  }

  /** The blob layout: IV, then tag, then ciphertext. */
  function Frame(iv: Bytes, tag: Bytes, ciphertext: Bytes): (blob: Bytes)
    ensures |blob| == |iv| + |tag| + |ciphertext|
    ensures blob[..|iv|] == iv
    ensures blob[|iv|..|iv| + |tag|] == tag
    ensures blob[|iv| + |tag|..] == ciphertext
  {
    iv + tag + ciphertext
  }

  /** How decryption cuts a buffer: bytes [0,16) are the IV, [16,32) the tag,
      and the rest the ciphertext; a short buffer gives short pieces. */
  function Unframe(blob: Bytes): (parts: Parts)
    ensures parts.iv + parts.tag + parts.ciphertext == blob
    ensures |parts.iv| <= IvLength && |parts.tag| <= AuthTagLength
    ensures |blob| >= IvLength + AuthTagLength ==>
              |parts.iv| == IvLength && |parts.tag| == AuthTagLength
    ensures |blob| <= IvLength + AuthTagLength ==> parts.ciphertext == []
    ensures parts.iv == blob[..if |blob| < IvLength then |blob| else IvLength]
    ensures |blob| >= IvLength ==>
              parts.tag == blob[IvLength..if |blob| < IvLength + AuthTagLength then |blob| else IvLength + AuthTagLength]
  {
    Parts(Subarray(blob, 0, IvLength),
          Subarray(blob, IvLength, IvLength + AuthTagLength),
          Subarray(blob, IvLength + AuthTagLength, |blob|))
  }

  /** Cutting a framed blob gives back its three pieces whenever the IV and
      the tag have their fixed sizes. */
  lemma UnframeFrame(iv: Bytes, tag: Bytes, ciphertext: Bytes)
    requires |iv| == IvLength && |tag| == AuthTagLength
    ensures Unframe(Frame(iv, tag, ciphertext)) == Parts(iv, tag, ciphertext)
  {
    var blob := Frame(iv, tag, ciphertext);
    assert Subarray(blob, 0, IvLength) == iv;
    assert Subarray(blob, IvLength, IvLength + AuthTagLength) == tag;
    assert Subarray(blob, IvLength + AuthTagLength, |blob|) == ciphertext;
  }

  /** The cipher output for `data` under the secret's key and the given IV. */
  function Seal(p: Primitives, data: string, secret: string, iv: Bytes): Sealed {
    p.seal(DeriveKey(p, secret), iv, data)
  }

  /** `encrypt(data, secret)`: the IV (random in the source) is a parameter. */
  function Encrypt(p: Primitives, data: string, secret: string, iv: Bytes): (blob: string)
    requires |iv| == IvLength
    ensures Base64RoundTrips(p) ==>
              var sealed := Seal(p, data, secret, iv);
              p.fromBase64(blob) == Frame(iv, sealed.tag, sealed.ciphertext)
    ensures Base64RoundTrips(p) && TagIsFull(p) ==>
              |p.fromBase64(blob)| == IvLength + AuthTagLength + |Seal(p, data, secret, iv).ciphertext|
    ensures Base64KeepsNonEmpty(p) ==> blob != ""
  {
    var sealed := Seal(p, data, secret, iv);
    p.toBase64(Frame(iv, sealed.tag, sealed.ciphertext))
  }

  /** `decrypt(blob, secret)`: None stands for the exception the cipher raises
      on a wrong key, a bad tag or a malformed buffer. */
  function Decrypt(p: Primitives, blob: string, secret: string): (r: Option<string>)
    ensures var b := p.fromBase64(blob);
            |b| >= IvLength + AuthTagLength ==>
              r == p.open(DeriveKey(p, secret), b[..16], b[16..32], b[32..])
    ensures var b := p.fromBase64(blob);
            |b| < IvLength + AuthTagLength ==>
              r == p.open(DeriveKey(p, secret), Unframe(b).iv, Unframe(b).tag, [])
  {
    var parts := Unframe(p.fromBase64(blob));
    p.open(DeriveKey(p, secret), parts.iv, parts.tag, parts.ciphertext)
  }

  /** Decrypting with the secret used to encrypt gives back the data, for
      every IV of the fixed size. */
  lemma DecryptEncrypt(p: Primitives, data: string, secret: string, iv: Bytes)
    requires Sound(p)
    requires |iv| == IvLength
    ensures Decrypt(p, Encrypt(p, data, secret, iv), secret) == Some(data)
  {
    var sealed := Seal(p, data, secret, iv);
    assert |sealed.tag| == AuthTagLength;
    UnframeFrame(iv, sealed.tag, sealed.ciphertext);
  }
}
