/**
 * The byte layout of the SDK's AES-256-GCM messages (src/helpers.ts):
 * IV (12 bytes) ‖ ciphertext ‖ authentication tag (16 bytes), base64-encoded.
 * The cipher, the hex key decoding and base64 are foreign; they are
 * parameters here, and the model covers how the bytes are laid out and cut.
 */
module Helpers {
  import opened Wrappers

  newtype byte = b: int | 0 <= b < 256

  const GcmIvLength: nat := 12
  const GcmTagLength: nat := 16

  /** What crypto.createDecipheriv gives for one key and IV: `update` on the data, then `final`, which checks the tag. */
  datatype GcmDecipher = GcmDecipher(
    update: (string, seq<byte>, seq<byte>) -> string,
    final: (string, seq<byte>, seq<byte>, seq<byte>) -> Option<string>)

  datatype DecryptError =
    | BufferSizeOutOfRange   // Buffer.alloc with a negative size throws a RangeError
    | AuthenticationFailed   // decipher.final throws when the tag does not match

  datatype Parts = Parts(iv: seq<byte>, data: seq<byte>, tag: seq<byte>)

  /**
   * encryptAes's buffer before base64: the random IV, the ciphertext
   * (cipher.update followed by cipher.final) and the tag, in that order.
   */
  function Frame(iv: seq<byte>, ciphertext: seq<byte>, tag: seq<byte>): (r: seq<byte>)
    requires |iv| == GcmIvLength && |tag| == GcmTagLength
    ensures |r| == GcmIvLength + |ciphertext| + GcmTagLength
    ensures r[..GcmIvLength] == iv
    ensures r[GcmIvLength..|r| - GcmTagLength] == ciphertext
    ensures r[|r| - GcmTagLength..] == tag
  {
    iv + ciphertext + tag
  }

  /**
   * How decryptAes cuts a decoded message: the IV is bytes [0, 12), the tag the
   * last 16 bytes and the data what lies between; a message shorter than 28
   * bytes makes the data buffer's size negative.
   */
  function SplitFrame(message: seq<byte>): (r: Result<Parts, DecryptError>)
    ensures r.Failure? <==> |message| < GcmIvLength + GcmTagLength
    ensures r.Failure? ==> r.error == BufferSizeOutOfRange
    ensures r.Success? ==> |r.value.iv| == GcmIvLength && |r.value.tag| == GcmTagLength
    ensures r.Success? ==> |r.value.data| == |message| - GcmIvLength - GcmTagLength
    ensures r.Success? ==> Frame(r.value.iv, r.value.data, r.value.tag) == message
  {
    if |message| < GcmIvLength + GcmTagLength then Failure(BufferSizeOutOfRange)
    else
      var n := |message|;
      var p := Parts(message[..GcmIvLength], message[GcmIvLength..n - GcmTagLength], message[n - GcmTagLength..]);
      assert p.iv + p.data + p.tag == message;
      Success(p)
  }

  /** Cutting a framed message gives back exactly the IV, ciphertext and tag it was built from. */
  lemma SplitOfFrame(iv: seq<byte>, ciphertext: seq<byte>, tag: seq<byte>)
    requires |iv| == GcmIvLength && |tag| == GcmTagLength
    ensures SplitFrame(Frame(iv, ciphertext, tag)) == Success(Parts(iv, ciphertext, tag))
  {
  }

  /** Distinct frames never cut into the same parts: the layout loses nothing. */
  lemma FrameInjective(p: Parts, q: Parts)
    requires |p.iv| == GcmIvLength && |p.tag| == GcmTagLength
    requires |q.iv| == GcmIvLength && |q.tag| == GcmTagLength
    requires Frame(p.iv, p.data, p.tag) == Frame(q.iv, q.data, q.tag)
    ensures p == q
  {
    SplitOfFrame(p.iv, p.data, p.tag);
    SplitOfFrame(q.iv, q.data, q.tag);
  }

  /** The number of bytes Buffer.prototype.copy moves: the source range, truncated to the room left in the target. */
  function CopyCount(sourceLength: nat, targetLength: nat, targetStart: nat, sourceStart: nat, sourceEnd: nat): (n: nat)
    requires targetStart <= targetLength && sourceStart <= sourceLength
    ensures sourceStart + n <= sourceLength && targetStart + n <= targetLength
    ensures sourceStart + n <= sourceEnd || n == 0
    // copying stops only where the source range or the room in the target runs out
    ensures n == 0 || sourceStart + n == sourceEnd || sourceStart + n == sourceLength || targetStart + n == targetLength
    ensures n == 0 ==> sourceEnd <= sourceStart || sourceStart == sourceLength || targetStart == targetLength
  {
    var end := if sourceEnd < sourceLength then sourceEnd else sourceLength;
    if end <= sourceStart then 0
    else if end - sourceStart < targetLength - targetStart then end - sourceStart
    else targetLength - targetStart
  }

  /** `source.copy(target, targetStart, sourceStart, sourceEnd)`. */
  method Copy(source: array<byte>, target: array<byte>, targetStart: nat, sourceStart: nat, sourceEnd: nat)
    returns (copied: nat)
    requires source != target
    requires targetStart <= target.Length && sourceStart <= source.Length
    modifies target
    ensures copied == CopyCount(source.Length, target.Length, targetStart, sourceStart, sourceEnd)
    ensures target[..] == old(target[..targetStart]) + source[sourceStart..sourceStart + copied]
                          + old(target[targetStart + copied..])
  {
    copied := CopyCount(source.Length, target.Length, targetStart, sourceStart, sourceEnd);
    var i := 0;
    while i < copied
      invariant 0 <= i <= copied
      invariant target[..targetStart] == old(target[..targetStart])
      invariant target[targetStart..targetStart + i] == source[sourceStart..sourceStart + i]
      invariant target[targetStart + i..] == old(target[targetStart + i..])
    {
      target[targetStart + i] := source[sourceStart + i];
      i := i + 1;
    }
    assert target[..] == target[..targetStart] + target[targetStart..targetStart + copied]
                         + target[targetStart + copied..];
  }

  /**
   * What decryptAes computes from the decoded message: the decipher runs on
   * the IV (bytes [0, 12)), the tag (the last 16 bytes) and the data between,
   * and the plaintext is update's output followed by final's.
   */
  function Decrypted(encrypted: seq<byte>, key: string, decipher: GcmDecipher): (r: Result<string, DecryptError>)
    ensures |encrypted| < GcmIvLength + GcmTagLength ==> r == Failure(BufferSizeOutOfRange)
    ensures |encrypted| >= GcmIvLength + GcmTagLength ==>
      var n := |encrypted|;
      var iv, data, tag := encrypted[..GcmIvLength], encrypted[GcmIvLength..n - GcmTagLength], encrypted[n - GcmTagLength..];
      && (r.Failure? <==> decipher.final(key, iv, tag, data).None?)
      && (r.Failure? ==> r.error == AuthenticationFailed)
      && (r.Success? ==> r.value == decipher.update(key, iv, data) + decipher.final(key, iv, tag, data).value)
  {
    match SplitFrame(encrypted)
    case Failure(e) => Failure(e)
    case Success(p) =>
      var last := decipher.final(key, p.iv, p.tag, p.data);
      if last.None? then Failure(AuthenticationFailed)
      else Success(decipher.update(key, p.iv, p.data) + last.value)
  }

  /** Decrypting a framed message hands the decipher exactly the IV, ciphertext and tag that were framed. */
  lemma DecryptFrame(iv: seq<byte>, ciphertext: seq<byte>, tag: seq<byte>, key: string, decipher: GcmDecipher)
    requires |iv| == GcmIvLength && |tag| == GcmTagLength
    ensures decipher.final(key, iv, tag, ciphertext).None? ==>
      Decrypted(Frame(iv, ciphertext, tag), key, decipher) == Failure(AuthenticationFailed)
    ensures decipher.final(key, iv, tag, ciphertext).Some? ==>
      Decrypted(Frame(iv, ciphertext, tag), key, decipher)
        == Success(decipher.update(key, iv, ciphertext) + decipher.final(key, iv, tag, ciphertext).value)
  {
    SplitOfFrame(iv, ciphertext, tag);
  }

  /**
   * decryptAes on the base64-decoded message: allocate the IV, tag and data
   * buffers, fill them with copies out of the message, then run the decipher
   * and accumulate its output.
   */
  method DecryptAes(encrypted: seq<byte>, key: string, decipher: GcmDecipher) returns (r: Result<string, DecryptError>)
    ensures r == Decrypted(encrypted, key, decipher)
  {
    var message := new byte[|encrypted|](i requires 0 <= i < |encrypted| => encrypted[i]);
    if message.Length - GcmIvLength - GcmTagLength < 0 {
      return Failure(BufferSizeOutOfRange);
    }
    var iv := new byte[GcmIvLength];
    var tag := new byte[GcmTagLength];
    var data := new byte[message.Length - GcmIvLength - GcmTagLength];
    var _ := Copy(message, iv, 0, 0, GcmIvLength);
    var _ := Copy(message, tag, 0, message.Length - GcmTagLength, message.Length);
    var _ := Copy(message, data, 0, GcmIvLength, message.Length);
    assert message[..] == encrypted;
    ghost var n := message.Length;
    assert iv[..] == encrypted[..GcmIvLength];
    assert tag[..] == encrypted[n - GcmTagLength..];
    assert data[..] == encrypted[GcmIvLength..n - GcmTagLength];

    var decrypted := decipher.update(key, iv[..], data[..]);
    var last := decipher.final(key, iv[..], tag[..], data[..]);
    if last.None? {
      return Failure(AuthenticationFailed);
    }
    decrypted := decrypted + last.value;
    return Success(decrypted);
  }
}
