/**
 * The message cipher of utils/encrypt.js and utils/decrypt.js.
 *
 * Both functions use AES-192-CBC under one key that scrypt derives from a
 * constant password and salt; neither takes a key argument. A token is the
 * base64 IV, a '.', and the hex ciphertext. scrypt, AES and the UTF-8
 * conversions are foreign, so they are the function values of `Primitives`;
 * the only thing assumed about them is `Inverts`, and only where a lemma needs it.
 */
module Cipher {
  import opened Common
  import Base64
  import Hex
  import Strings

  const ALGORITHM := "aes-192-cbc"
  const PASSWORD := "defineaPassword"
  const SALT := "salt"
  const KEY_LENGTH := 24
  const IV_LENGTH := 16
  const SEPARATOR := '.'

  const ENCRYPTION_FAILED := "Encryption failed"
  const DECRYPTION_FAILED := "Decryption failed"

  /**
   * The library calls: `scrypt(password, salt, length)`, and AES under
   * (key, iv) from a UTF-8 plaintext to ciphertext bytes and back.
   * None stands for a call that throws.
   */
  datatype Primitives = Primitives(
    scrypt: (string, string, nat) -> seq<Byte>,
    encrypt: (seq<Byte>, seq<Byte>, string) -> Option<seq<Byte>>,
    decrypt: (seq<Byte>, seq<Byte>, seq<Byte>) -> Option<string>)

  /** The single key every message is encrypted with, whoever the recipient is. */
  function Key(p: Primitives): seq<Byte>
  {
    p.scrypt(PASSWORD, SALT, KEY_LENGTH)
  }

  /** AES under the module key and a 16-byte IV decrypts what it encrypted. */
  ghost predicate Inverts(p: Primitives)
  {
    forall iv: seq<Byte>, m: string {:trigger p.encrypt(Key(p), iv, m)} ::
      |iv| == IV_LENGTH && p.encrypt(Key(p), iv, m).Some? ==>
        p.decrypt(Key(p), iv, p.encrypt(Key(p), iv, m).value) == Some(m)
  }

  /**
   * `encryptMessage(message)`: `iv` is the call's `randomBytes(16)`.
   * A failure inside the library surfaces as the one error "Encryption failed".
   */
  function EncryptMessage(p: Primitives, iv: seq<Byte>, message: string): (r: Result<string, string>)
    requires |iv| == IV_LENGTH
    ensures r.Err? <==> p.encrypt(Key(p), iv, message).None?
    ensures r.Err? ==> r.error == ENCRYPTION_FAILED
  {
    match p.encrypt(Key(p), iv, message)
    case None => Err(ENCRYPTION_FAILED)
    case Some(ciphertext) => Ok(Base64.Encode(iv) + [SEPARATOR] + Hex.Encode(ciphertext))
  }

  /**
   * `decryptMessage(token)`: split on '.', decode the first piece as the base64 IV
   * and the second as hex ciphertext; further pieces are ignored. A missing second
   * piece, an IV that does not decode to 16 bytes, undecodable hex or a failing
   * AES call all surface as the one error "Decryption failed".
   */
  function DecryptMessage(p: Primitives, token: string): (r: Result<string, string>)
    ensures r.Err? ==> r.error == DECRYPTION_FAILED
  {
    var pieces := Strings.Split(token, SEPARATOR);
    if |pieces| < 2 then Err(DECRYPTION_FAILED)
    else
      match (Base64.Decode(pieces[0]), Hex.Decode(pieces[1]))
      case (Some(iv), Some(ciphertext)) =>
        if |iv| != IV_LENGTH then Err(DECRYPTION_FAILED)
        else
          (match p.decrypt(Key(p), iv, ciphertext)
           case Some(message) => Ok(message)
           case None => Err(DECRYPTION_FAILED))
      case _ => Err(DECRYPTION_FAILED)
  }

  /**
   * A token is the 24-character base64 IV, then the separator, then only hex:
   * the separator occurs exactly once, at index 24.
   */
  lemma TokenFraming(p: Primitives, iv: seq<Byte>, message: string)
    requires |iv| == IV_LENGTH
    requires EncryptMessage(p, iv, message).Ok?
    ensures var token := EncryptMessage(p, iv, message).value;
      && |token| > 24
      && token[..24] == Base64.Encode(iv)
      && token[24] == SEPARATOR
      && forall i :: 0 <= i < |token| && i != 24 ==> token[i] != SEPARATOR
  {
    Base64.EncodeLength(iv);
    var token := EncryptMessage(p, iv, message).value;
    var ciphertext := p.encrypt(Key(p), iv, message).value;
    var prefix, suffix := Base64.Encode(iv), Hex.Encode(ciphertext);
    assert token == prefix + [SEPARATOR] + suffix;
    forall i | 0 <= i < |token| && i != 24
      ensures token[i] != SEPARATOR
    {
      if i < 24 {
        assert token[i] == prefix[i];
      } else {
        assert token[i] == suffix[i - 25];
      }
    }
  }

  /** Splitting a token on '.' gives back exactly its IV part and its ciphertext part. */
  lemma TokenSplits(iv: seq<Byte>, ciphertext: seq<Byte>)
    ensures Strings.Split(Base64.Encode(iv) + [SEPARATOR] + Hex.Encode(ciphertext), SEPARATOR)
         == [Base64.Encode(iv), Hex.Encode(ciphertext)]
  {
    Strings.SplitAt(Base64.Encode(iv), SEPARATOR, Hex.Encode(ciphertext));
    Strings.SplitWithout(Hex.Encode(ciphertext), SEPARATOR);
  }

  /** Round trip: decrypting a token recovers the message, given that AES inverts. */
  lemma RoundTrip(p: Primitives, iv: seq<Byte>, message: string)
    requires Inverts(p)
    requires |iv| == IV_LENGTH
    requires EncryptMessage(p, iv, message).Ok?
    ensures DecryptMessage(p, EncryptMessage(p, iv, message).value) == Ok(message)
  {
    var ciphertext := p.encrypt(Key(p), iv, message).value;
    TokenSplits(iv, ciphertext);
    Base64.RoundTrip(iv);
    Hex.RoundTrip(ciphertext);
  }

  /** The IV is fresh per call, so two encryptions under different IVs differ. */
  lemma DistinctIvsDistinctTokens(p: Primitives, iv1: seq<Byte>, iv2: seq<Byte>, message: string)
    requires |iv1| == IV_LENGTH && |iv2| == IV_LENGTH && iv1 != iv2
    requires EncryptMessage(p, iv1, message).Ok? && EncryptMessage(p, iv2, message).Ok?
    ensures EncryptMessage(p, iv1, message).value != EncryptMessage(p, iv2, message).value
  {
    TokenFraming(p, iv1, message);
    TokenFraming(p, iv2, message);
    if EncryptMessage(p, iv1, message).value == EncryptMessage(p, iv2, message).value {
      Base64.Injective(iv1, iv2);
    }
  }

  /** A string without '.' is never a token. */
  lemma MissingSeparatorFails(p: Primitives, token: string)
    requires SEPARATOR !in token
    ensures DecryptMessage(p, token) == Err(DECRYPTION_FAILED)
  {
    Strings.SplitWithout(token, SEPARATOR);
  }

  /** Only the first two pieces count: anything after a second '.' is ignored. */
  lemma ExtraPiecesIgnored(p: Primitives, ivPart: string, ciphertextPart: string, rest: string)
    requires SEPARATOR !in ivPart && SEPARATOR !in ciphertextPart
    ensures DecryptMessage(p, ivPart + [SEPARATOR] + ciphertextPart + [SEPARATOR] + rest)
         == DecryptMessage(p, ivPart + [SEPARATOR] + ciphertextPart)
  {
    var tail := ciphertextPart + [SEPARATOR] + rest;
    assert ivPart + [SEPARATOR] + ciphertextPart + [SEPARATOR] + rest == ivPart + [SEPARATOR] + tail;
    Strings.SplitAt(ivPart, SEPARATOR, tail);
    Strings.SplitAt(ciphertextPart, SEPARATOR, rest);
    Strings.SplitAt(ivPart, SEPARATOR, ciphertextPart);
    Strings.SplitWithout(ciphertextPart, SEPARATOR);
  }

  /** An IV part that does not decode to exactly 16 bytes fails, whatever follows. */
  lemma BadIvFails(p: Primitives, ivPart: string, ciphertextPart: string)
    requires SEPARATOR !in ivPart
    requires Base64.Decode(ivPart).None? || |Base64.Decode(ivPart).value| != IV_LENGTH
    ensures DecryptMessage(p, ivPart + [SEPARATOR] + ciphertextPart) == Err(DECRYPTION_FAILED)
  {
    Strings.SplitAt(ivPart, SEPARATOR, ciphertextPart);
  }
}
