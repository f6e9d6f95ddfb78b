/** The framing around the chat cipher of `cryptoEngine` (extension/content.js):
    a fresh 12-byte IV is put in front of the ciphertext, the bytes travel as
    a base64 text, and decryption splits them again. The cipher (AES-GCM over
    the UTF-8 text), base64 and key derivation are foreign primitives: they
    are given as the functions of a `Primitives` value, and the lemmas state
    what they must satisfy. Every failure falls back to the input text. */
module CryptoFraming {
  import opened Options

  newtype byte = x: int | 0 <= x < 256

  /** `ivLength` and the size of the IV drawn per message. */
  const IvLength: nat := 12

  /** The room key. PBKDF2 derivation is not modelled: the key records the
      room identifier it was derived from. */
  datatype Key = Key(secret: string)

  /** The foreign primitives. `seal`/`open` are AES-GCM with the text
      encoder/decoder folded in; `None` is a rejected promise. `fromBase64`
      is `atob`, `None` when it throws. */
  datatype Primitives = Primitives(
    seal: (Key, seq<byte>, string) -> Option<seq<byte>>,
    open: (Key, seq<byte>, seq<byte>) -> Option<string>,
    toBase64: string -> string,
    fromBase64: string -> Option<string>)

  /** The binary string built char by char with `String.fromCharCode`. */
  function BinaryString(bytes: seq<byte>): (s: string)
    ensures |s| == |bytes|
  {
    if bytes == [] then [] else BinaryString(bytes[..|bytes| - 1]) + [bytes[|bytes| - 1] as int as char]
  }

  /** The bytes a `Uint8Array` keeps of `charCodeAt(i)`: the code modulo 256. */
  function BinaryBytes(s: string): (bytes: seq<byte>)
    ensures |bytes| == |s|
  {
    if s == [] then [] else BinaryBytes(s[..|s| - 1]) + [(s[|s| - 1] as int % 256) as byte]
  }

  /** Each character of the binary string carries its byte. */
  lemma {:induction false} BinaryStringAt(bytes: seq<byte>, i: nat)
    requires i < |bytes|
    ensures BinaryString(bytes)[i] as int == bytes[i] as int
  {
    if i < |bytes| - 1 {
      BinaryStringAt(bytes[..|bytes| - 1], i);
    }
  }

  /** Reading the bytes back from a binary string gives the original bytes. */
  lemma {:induction false} BinaryRoundTrip(bytes: seq<byte>)
    ensures BinaryBytes(BinaryString(bytes)) == bytes
  {
    if bytes != [] {
      var s := BinaryString(bytes);
      assert s[..|s| - 1] == BinaryString(bytes[..|bytes| - 1]);
      BinaryRoundTrip(bytes[..|bytes| - 1]);
    }
  }

  /** The loop of `encrypt` that turns the combined bytes into a binary string. */
  method PackBinary(bytes: seq<byte>) returns (binary: string)
    ensures binary == BinaryString(bytes)
  {
    binary := "";
    var i := 0;
    while i < |bytes|
      invariant 0 <= i <= |bytes|
      invariant binary == BinaryString(bytes[..i])
    {
      assert bytes[..i + 1][..i] == bytes[..i];
      binary := binary + [bytes[i] as int as char];
      i := i + 1;
    }
    assert bytes[..i] == bytes;
  }

  /** The loop of `decrypt` that copies `atob`'s output into a `Uint8Array`. */
  method UnpackBinary(binary: string) returns (combined: array<byte>)
    ensures combined[..] == BinaryBytes(binary)
  {
    combined := new byte[|binary|];
    var i := 0;
    while i < |binary|
      invariant 0 <= i <= |binary|
      invariant combined[..i] == BinaryBytes(binary[..i])
    {
      assert binary[..i + 1][..i] == binary[..i];
      combined[i] := (binary[i] as int % 256) as byte;
      assert combined[..i + 1] == combined[..i] + [combined[i]];
      i := i + 1;
    }
    assert binary[..i] == binary;
    assert combined[..] == combined[..i];
  }

  /** What `encrypt` returns: the text itself without a key or when the
      cipher fails, otherwise base64 of IV followed by ciphertext. */
  function Encrypted(prims: Primitives, key: Option<Key>, iv: seq<byte>, text: string): (r: string)
    ensures key.None? ==> r == text
    ensures r != text ==> key.Some? && prims.seal(key.value, iv, text).Some?
  {
    if key.None? then text
    else match prims.seal(key.value, iv, text)
      case None => text
      case Some(ct) => prims.toBase64(BinaryString(iv + ct))
  }

  /** What `decrypt` returns: without a key, when base64 fails, when fewer
      than 12 bytes arrive or when the cipher rejects, the input itself;
      otherwise the plaintext of the bytes after the 12-byte IV. */
  function Decrypted(prims: Primitives, key: Option<Key>, text: string): (r: string)
    ensures key.None? ==> r == text
    ensures r != text ==>
      key.Some? && prims.fromBase64(text).Some? && |prims.fromBase64(text).value| >= IvLength
  {
    if key.None? then text
    else match prims.fromBase64(text)
      case None => text
      case Some(binary) =>
        var combined := BinaryBytes(binary);
        if |combined| < IvLength then text
        else match prims.open(key.value, combined[..IvLength], combined[IvLength..])
          case None => text
          case Some(plain) => plain
  }

  /** `cryptoEngine.encrypt(text)` with the random IV as a parameter
      (`getRandomValues` always fills 12 bytes). */
  method Encrypt(prims: Primitives, key: Option<Key>, iv: seq<byte>, text: string) returns (r: string)
    requires |iv| == IvLength
    ensures r == Encrypted(prims, key, iv, text)
  {
    if key.None? {
      return text;
    }
    var sealed := prims.seal(key.value, iv, text);
    if sealed.None? {
      return text;
    }
    var binary := PackBinary(iv + sealed.value);
    r := prims.toBase64(binary);
  }

  /** `cryptoEngine.decrypt(text)`. */
  method Decrypt(prims: Primitives, key: Option<Key>, text: string) returns (r: string)
    ensures r == Decrypted(prims, key, text)
  {
    if key.None? {
      return text;
    }
    var decoded := prims.fromBase64(text);
    if decoded.None? {
      return text;
    }
    var combined := UnpackBinary(decoded.value);
    if combined.Length < IvLength {
      return text;
    }
    var plain := prims.open(key.value, combined[..IvLength], combined[IvLength..]);
    r := if plain.Some? then plain.value else text;
  }

  /** Decryption fails open: a text whose decoded form is shorter than the IV
      comes back unchanged, and so does one the cipher rejects. */
  lemma DecryptFailsOpen(prims: Primitives, k: Key, text: string)
    ensures prims.fromBase64(text).None? ==> Decrypted(prims, Some(k), text) == text
    ensures prims.fromBase64(text).Some? && |prims.fromBase64(text).value| < IvLength ==>
      Decrypted(prims, Some(k), text) == text
    ensures prims.fromBase64(text).Some? ==>
      var combined := BinaryBytes(prims.fromBase64(text).value);
      (|combined| >= IvLength && prims.open(k, combined[..IvLength], combined[IvLength..]).None?) ==>
        Decrypted(prims, Some(k), text) == text
  {
  }

  /** The framing round trip: when the cipher opens what it sealed and base64
      decodes what it encoded, decryption recovers the message, because it
      splits the bytes exactly where encryption joined IV and ciphertext. */
  lemma {:induction false} EncryptDecryptRoundTrip(prims: Primitives, k: Key, iv: seq<byte>, m: string, ct: seq<byte>)
    requires |iv| == IvLength
    requires prims.seal(k, iv, m) == Some(ct)
    requires prims.open(k, iv, ct) == Some(m)
    requires prims.fromBase64(prims.toBase64(BinaryString(iv + ct))) == Some(BinaryString(iv + ct))
    ensures Decrypted(prims, Some(k), Encrypted(prims, Some(k), iv, m)) == m
  {
    BinaryRoundTrip(iv + ct);
    var combined := iv + ct;
    assert combined[..IvLength] == iv;
    assert combined[IvLength..] == ct;
  }
}
