/** The blob encryption layer (util/crypto.py): a key stretched from a
    secret with PBKDF2-HMAC-SHA512 over a 16-byte salt, ChaCha20-Poly1305
    sealing, and a `nonce$salt$ciphertext` message of base64 fields. The
    cipher and the key derivation are foreign code and enter as functions;
    `os.urandom` enters as the bytes it returned. */
module Crypto {

  import opened Py
  import opened Text
  import Base64

  type Bytes = seq<byte>

  /** ChaCha20Poly1305 `encrypt`/`decrypt` (key, nonce, data) and PBKDF2HMAC
      `derive` (secret, salt, iterations) with a 32-byte output. */
  datatype Primitives = Primitives(
    seal: (Bytes, Bytes, Bytes) -> Bytes,
    open: (Bytes, Bytes, Bytes) -> Result<Bytes>,
    derive: (Bytes, Bytes, int) -> Bytes)

  /** Opening what was sealed under the same key and nonce gives it back. */
  ghost predicate AeadCorrect(p: Primitives) {
    forall k, n, m :: p.open(k, n, p.seal(k, n, m)) == Success(m)
  }

  /** The derivation is asked for 32 bytes and returns 32 bytes. */
  ghost predicate KdfLength(p: Primitives) {
    forall s, salt, it :: |p.derive(s, salt, it)| == 32
  }

  /** A `CryptProvider`: the derived key and the salt it was derived with. */
  datatype Provider = Provider(key: Bytes, salt: Bytes)

  /** The parameters `_make_kdf` hands to PBKDF2HMAC. */
  datatype Kdf = Kdf(algorithm: string, length: nat, salt: Bytes, iterations: int)

  const SaltLengthError: Exc := ValueError("Salt must be 16 bytes in length")

  /** `_make_kdf(iterations)` with `self.salt` passed in: an empty salt is
      "not set", any other length than 16 is refused. */
  function MakeKdf(salt: Bytes, iterations: int): (r: Result<Kdf>)
    ensures r.Success? <==> |salt| == 16
    ensures salt == [] ==> r == Failure(ValueError("Salt must be set"))
    ensures salt != [] && |salt| != 16 ==> r == Failure(SaltLengthError)
    ensures r.Success? ==> r.value.salt == salt && r.value.iterations == iterations
                           && r.value.length == 32 && r.value.algorithm == "SHA512"
  {
    if salt == [] then Failure(ValueError("Salt must be set"))
    else if |salt| != 16 then Failure(SaltLengthError)
    else Success(Kdf("SHA512", 32, salt, iterations))
  }

  /** `CryptProvider(secret, iterations, salt)`: a missing or empty salt is
      replaced by 16 random bytes (`random16`); a salt of any other length
      than 16 is refused; the key is derived from the secret over the salt. */
  function NewProvider(p: Primitives, secret: Bytes, iterations: int, salt: Option<Bytes>, random16: Bytes): (r: Result<Provider>)
    ensures var chosen := if salt.None? || salt.value == [] then random16 else salt.value;
            && (r.Success? <==> |chosen| == 16)
            && (r.Failure? ==> r.exc == SaltLengthError)
            && (r.Success? ==> r.value.salt == chosen && r.value.key == p.derive(secret, chosen, iterations))
    ensures r.Success? && KdfLength(p) ==> |r.value.key| == 32
  {
    var chosen := if salt.None? || salt.value == [] then random16 else salt.value;
    if |chosen| != 16 then Failure(SaltLengthError)
    else
      match MakeKdf(chosen, iterations)
      case Failure(e) => Failure(e)
      case Success(kdf) => Success(Provider(p.derive(secret, kdf.salt, kdf.iterations), chosen))
  }

  /** The key guard shared by `encrypt_blob` and `decrypt_message`. */
  function KeyCheck(key: Bytes): (r: Result<()>)
    ensures r.Success? <==> |key| == 32
    ensures key == [] ==> r == Failure(ValueError("Key must be set"))
    ensures key != [] && |key| != 32 ==> r == Failure(ValueError("Key must be 32 bytes in length"))
  {
    if key == [] then Failure(ValueError("Key must be set"))
    else if |key| != 32 then Failure(ValueError("Key must be 32 bytes in length"))
    else Success(())
  }

  /** Unpacking `message.split(b'$')` into three names. */
  function Unpack3(fields: seq<string>): (r: Result<(string, string, string)>)
    ensures r.Success? <==> |fields| == 3
    ensures r.Success? ==> r.value == (fields[0], fields[1], fields[2])
    ensures |fields| < 3 ==> r.Failure? && r.exc.ValueError?
    ensures |fields| > 3 ==> r == Failure(ValueError("too many values to unpack (expected 3)"))
  {
    if |fields| < 3 then
      Failure(ValueError("not enough values to unpack (expected 3, got " + IntToString(|fields|) + ")"))
    else if |fields| > 3 then Failure(ValueError("too many values to unpack (expected 3)"))
    else Success((fields[0], fields[1], fields[2]))
  }

  /** A message field as written: `str.format` of the bytes object that
      `b64encode` returns, i.e. its `b'…'` rendering. */
  function WrittenField(b: Bytes): string {
    Base64.BytesStr(Base64.Encode(b))
  }

  /** `nonce$salt$ciphertext` from three rendered fields. */
  function Join(n: string, s: string, c: string): string {
    n + "$" + s + "$" + c
  }

  /** `encrypt_blob(blob)` as written, with `nonce` the 12 bytes drawn from
      `os.urandom`. */
  function EncryptBlob(p: Primitives, prov: Provider, blob: Bytes, nonce: Bytes): (r: Result<string>)
    ensures r.Success? <==> |prov.key| == 32
    ensures r.Failure? ==> r == KeyCheck(prov.key).PropagateFailure()
    ensures r.Success? ==> CountChar(r.value, '$') == 2
    ensures r.Success? ==>
              Split(r.value, '$') == [WrittenField(nonce), WrittenField(prov.salt), WrittenField(p.seal(prov.key, nonce, blob))]
  {
    var _ :- KeyCheck(prov.key);
    var sealed := p.seal(prov.key, nonce, blob);
    var m := Join(WrittenField(nonce), WrittenField(prov.salt), WrittenField(sealed));
    WrittenFieldsSplit(nonce, prov.salt, sealed);
    SplitLength(m, '$');
    Success(m)
  }

  /** `extract_salt_from_message(message)`: the middle field, still encoded. */
  function ExtractSalt(message: string): (r: Result<string>)
    ensures r.Success? <==> CountChar(message, '$') == 2
    ensures r.Success? ==> '$' !in r.value
    ensures r.Success? ==> |Split(message, '$')| == 3 && r.value == Split(message, '$')[1]
  {
    SplitLength(message, '$');
    var (_, salt, _) :- Unpack3(Split(message, '$'));
    SplitFieldsPlain(message);
    Success(salt)
  }

  /** `decrypt_blob(nonce, salt, enc_blob)`: the message's salt must be the
      provider's before the cipher is asked to open the blob. */
  function DecryptBlob(p: Primitives, prov: Provider, nonce: Bytes, salt: Bytes, enc: Bytes): (r: Result<Bytes>)
    ensures prov.salt == [] ==> r == Failure(ValueError("Salt must be set"))
    ensures prov.salt != [] && salt != prov.salt ==> r == Failure(ValueError("Salts do not match."))
    ensures prov.salt != [] && salt == prov.salt ==> r == p.open(prov.key, nonce, enc)
  {
    if prov.salt == [] then Failure(ValueError("Salt must be set"))
    else if salt != prov.salt then Failure(ValueError("Salts do not match."))
    else p.open(prov.key, nonce, enc)
  }

  /** `decrypt_message(message)`: check the key, split into three fields,
      decode each (nonce first), then `decrypt_blob`. */
  function DecryptMessage(p: Primitives, prov: Provider, message: string): (r: Result<Bytes>)
    ensures |prov.key| != 32 ==> r == KeyCheck(prov.key).PropagateFailure()
    ensures |prov.key| == 32 && CountChar(message, '$') != 2 ==> r.Failure? && r.exc.ValueError?
    ensures var f := Split(message, '$');
            |prov.key| == 32 && |f| == 3 ==>
              && (Base64.Decode(f[0]).Failure? ==> r == Failure(BinasciiError("Incorrect padding")))
              && (Base64.Decode(f[0]).Failure? || Base64.Decode(f[1]).Failure? || Base64.Decode(f[2]).Failure? ==>
                    r == Failure(BinasciiError("Incorrect padding")))
              && (Base64.Decode(f[0]).Success? && Base64.Decode(f[1]).Success? && Base64.Decode(f[2]).Success? ==>
                    r == DecryptBlob(p, prov, Base64.Decode(f[0]).value, Base64.Decode(f[1]).value, Base64.Decode(f[2]).value))
  {
    var _ :- KeyCheck(prov.key);
    SplitLength(message, '$');
    var (n, s, c) :- Unpack3(Split(message, '$'));
    var nonce :- Base64.Decode(n);
    var salt :- Base64.Decode(s);
    var enc :- Base64.Decode(c);
    DecryptBlob(p, prov, nonce, salt, enc)
  }

  /** The fields of a split carry no separator. */
  lemma {:induction false} SplitFieldsPlain(s: string)
    ensures forall i :: 0 <= i < |Split(s, '$')| ==> '$' !in Split(s, '$')[i]
    decreases |s|
  {
    if |s| > 0 {
      SplitFieldsPlain(s[1..]);
      var rest := Split(s[1..], '$');
      if s[0] != '$' {
        assert '$' !in [s[0]] + rest[0];
      }
    }
  }

  /** The rendering of an encoding has no `$`. */
  lemma WrittenFieldPlain(b: Bytes)
    ensures '$' !in WrittenField(b)
  {
    var e := Base64.Encode(b);
    assert forall i :: 0 <= i < |e| ==> e[i] != '$';
    assert WrittenField(b) == "b'" + e + "'";
  }

  /** A message as written splits back into its three rendered fields. */
  lemma WrittenFieldsSplit(n: Bytes, s: Bytes, c: Bytes)
    ensures Split(Join(WrittenField(n), WrittenField(s), WrittenField(c)), '$')
            == [WrittenField(n), WrittenField(s), WrittenField(c)]
  {
    WrittenFieldPlain(n);
    WrittenFieldPlain(s);
    WrittenFieldPlain(c);
    SplitThree(WrittenField(n), WrittenField(s), WrittenField(c), '$');
  }

  /** `extract_salt_from_message` on an encrypted message returns the salt
      field as written: the `b'…'` rendering, not the salt. */
  lemma ExtractSaltOfWritten(p: Primitives, prov: Provider, blob: Bytes, nonce: Bytes)
    requires EncryptBlob(p, prov, blob, nonce).Success?
    ensures ExtractSalt(EncryptBlob(p, prov, blob, nonce).value) == Success(WrittenField(prov.salt))
  {
    WrittenFieldsSplit(nonce, prov.salt, p.seal(prov.key, nonce, blob));
  }

  /** No message `encrypt_blob` produces can be decrypted, by any provider
      with a usable key: the 12-byte nonce encodes to 16 characters without
      padding, and the rendering adds the character `b`, so the nonce field
      has 17 data characters and decoding it raises `binascii.Error`. */
  lemma EncryptedMessagesNeverDecrypt(p: Primitives, prov: Provider, blob: Bytes, nonce: Bytes, reader: Provider)
    requires |nonce| == 12
    requires EncryptBlob(p, prov, blob, nonce).Success?
    requires |reader.key| == 32
    ensures DecryptMessage(p, reader, EncryptBlob(p, prov, blob, nonce).value) == Failure(BinasciiError("Incorrect padding"))
  {
    WrittenFieldsSplit(nonce, prov.salt, p.seal(prov.key, nonce, blob));
    Base64.QuotedUnpaddedRejected(nonce);
  }

  /** The message fields as evidently intended: the encoded text itself
      (`b64encode(x).decode()`), so the decoder sees exactly the encoding. */
  function FixedField(b: Bytes): (r: string)
    ensures '$' !in r
    ensures Base64.Decode(r) == Success(b)
  {
    Base64.EncodeIsPlain(b);
    Base64.DecodeEncode(b);
    Base64.Encode(b)
  }

  /** `encrypt_blob` with plain base64 fields. */
  function EncryptBlobFixed(p: Primitives, prov: Provider, blob: Bytes, nonce: Bytes): (r: Result<string>)
    ensures r.Success? <==> |prov.key| == 32
    ensures r.Failure? ==> r == KeyCheck(prov.key).PropagateFailure()
    ensures r.Success? ==> Split(r.value, '$') == [FixedField(nonce), FixedField(prov.salt), FixedField(p.seal(prov.key, nonce, blob))]
  {
    var _ :- KeyCheck(prov.key);
    var sealed := p.seal(prov.key, nonce, blob);
    SplitThree(FixedField(nonce), FixedField(prov.salt), FixedField(sealed), '$');
    Success(Join(FixedField(nonce), FixedField(prov.salt), FixedField(sealed)))
  }

  /** With the fixed fields, `decrypt_message` undoes `encrypt_blob` for
      the provider that encrypted (given a cipher that opens what it
      sealed). */
  lemma FixedRoundTrip(p: Primitives, prov: Provider, blob: Bytes, nonce: Bytes)
    requires AeadCorrect(p)
    requires prov.salt != []
    requires EncryptBlobFixed(p, prov, blob, nonce).Success?
    ensures DecryptMessage(p, prov, EncryptBlobFixed(p, prov, blob, nonce).value) == Success(blob)
  {
    var m := EncryptBlobFixed(p, prov, blob, nonce).value;
    SplitLength(m, '$');
  }

  /** With the fixed fields, a provider holding another salt refuses the
      message before opening it. */
  lemma FixedForeignSaltRefused(p: Primitives, prov: Provider, blob: Bytes, nonce: Bytes, reader: Provider)
    requires EncryptBlobFixed(p, prov, blob, nonce).Success?
    requires |reader.key| == 32 && reader.salt != [] && reader.salt != prov.salt
    ensures DecryptMessage(p, reader, EncryptBlobFixed(p, prov, blob, nonce).value) == Failure(ValueError("Salts do not match."))
  {
    var m := EncryptBlobFixed(p, prov, blob, nonce).value;
    SplitLength(m, '$');
  }

  /** A freshly built provider round-trips through the fixed message
      format: the 16-byte salt is set and the derived key has 32 bytes. */
  lemma ProviderRoundTrip(p: Primitives, secret: Bytes, iterations: int, salt: Option<Bytes>, random16: Bytes, blob: Bytes, nonce: Bytes)
    requires AeadCorrect(p) && KdfLength(p)
    requires NewProvider(p, secret, iterations, salt, random16).Success?
    ensures var prov := NewProvider(p, secret, iterations, salt, random16).value;
            && EncryptBlobFixed(p, prov, blob, nonce).Success?
            && DecryptMessage(p, prov, EncryptBlobFixed(p, prov, blob, nonce).value) == Success(blob)
  {
    var prov := NewProvider(p, secret, iterations, salt, random16).value;
    FixedRoundTrip(p, prov, blob, nonce);
  }
}
