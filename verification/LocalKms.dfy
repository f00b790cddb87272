/** The local key-management client: a prefix and base64 in place of Vault. */
module LocalKms {
  import opened ByteStrings
  import opened Wrappers
  import opened Decimal
  import Base64

  const PREFIX: Bytes := "vault:v1:"

  /** The static development pepper. */
  const LOCAL_PEPPER: Bytes := "local-dev-pepper-not-secure"

  datatype KmsError = BadCiphertext

  function Encrypt(plaintext: Bytes): Bytes {
    PREFIX + Base64.Encode(plaintext)
  }

  /** A value without the prefix is returned trimmed, not rejected. */
  function Decrypt(ciphertext: Bytes): Result<Bytes, KmsError> {
    DecryptTrimmed(TrimSpace(ciphertext), PREFIX)
  }

  function DecryptTrimmed(raw: Bytes, prefix: Bytes): Result<Bytes, KmsError> {
    if !HasPrefix(raw, prefix) then Ok(raw)
    else
      match Base64.Decode(raw[|prefix|..])
      case None => Err(BadCiphertext)
      case Some(plaintext) => Ok(plaintext)
  }

  /** Decryption undoes encryption on every byte string: neither the trim nor the prefix
      test nor the decoder's skipping of line breaks can touch what `Encrypt` made. */
  lemma DecryptEncrypt(plaintext: Bytes)
    ensures Decrypt(Encrypt(plaintext)) == Ok(plaintext)
  {
    CiphertextRoundTrip(PREFIX, plaintext);
  }

  lemma CiphertextRoundTrip(prefix: Bytes, plaintext: Bytes)
    requires prefix != [] && !IsSpace(prefix[0]) && !IsSpace(prefix[|prefix| - 1])
    ensures DecryptTrimmed(TrimSpace(prefix + Base64.Encode(plaintext)), prefix) == Ok(plaintext)
  {
    CiphertextIsTrimmed(prefix, plaintext);
    assert (prefix + Base64.Encode(plaintext))[|prefix|..] == Base64.Encode(plaintext);
    Base64.DecodeEncode(plaintext);
  }

  lemma CiphertextIsTrimmed(prefix: Bytes, plaintext: Bytes)
    requires prefix != [] && !IsSpace(prefix[0]) && !IsSpace(prefix[|prefix| - 1])
    ensures TrimSpace(prefix + Base64.Encode(plaintext)) == prefix + Base64.Encode(plaintext)
  {
    var body := Base64.Encode(plaintext);
    var c := prefix + body;
    Base64.EncodeHasNoLineBreaks(plaintext);
    if body != [] {
      assert c[|c| - 1] == body[|body| - 1] && body[|body| - 1] in body;
    } else {
      assert c == prefix;
    }
    TrimSpaceFixed(c);
  }

  /** What a reader gets back from a stored number. */
  function DecryptInt(ciphertext: Bytes): Option<int64> {
    match Decrypt(ciphertext)
    case Err(_) => None
    case Ok(plaintext) => Atoi(plaintext)
  }

  /** A stored integer comes back unchanged through printing, encoding, decoding, parsing. */
  lemma IntRoundTrip(n: int64)
    ensures Decrypt(Encrypt(Itoa(n))) == Ok(Itoa(n)) && DecryptInt(Encrypt(Itoa(n))) == Some(n)
  {
    DecryptEncrypt(Itoa(n));
    AtoiItoa(n);
  }

  /** Distinct plaintexts never share a ciphertext. */
  lemma EncryptInjective(p: Bytes, q: Bytes)
    requires Encrypt(p) == Encrypt(q)
    ensures p == q
  {
    DecryptEncrypt(p);
    DecryptEncrypt(q);
  }

  /** `strings.ToUpper(strings.TrimSpace(id))`. */
  function NormalizeExternalID(externalID: Bytes): Bytes {
    ToUpper(TrimSpace(externalID))
  }

  /** Surrounding white space does not matter to a lookup. */
  lemma NormalizeIgnoresSpace(left: Bytes, id: Bytes, right: Bytes)
    requires forall i :: 0 <= i < |left| ==> IsSpace(left[i])
    requires forall i :: 0 <= i < |right| ==> IsSpace(right[i])
    ensures NormalizeExternalID(left + id + right) == NormalizeExternalID(id)
  {
    TrimSpaceAround(left, id, right);
  }

  /** Letter case does not matter to a lookup. */
  lemma NormalizeIgnoresCase(id: Bytes)
    ensures NormalizeExternalID(ToUpper(id)) == NormalizeExternalID(id)
  {
    TrimUpper(id);
  }

  /** An id with no white space at its ends and no lower-case letter is its own normal form. */
  lemma NormalFormIsFixed(id: Bytes)
    requires id != [] ==> !IsSpace(id[0]) && !IsSpace(id[|id| - 1])
    requires forall i :: 0 <= i < |id| ==> !('a' <= id[i] <= 'z')
    ensures NormalizeExternalID(id) == id
  {
    TrimSpaceFixed(id);
    ToUpperIs(id, id);
  }

  /** Two ids have one normal form exactly when their trims are equal up to letter case. */
  lemma SameNormalFormIff(a: Bytes, b: Bytes)
    ensures NormalizeExternalID(a) == NormalizeExternalID(b) <==> SameButCase(TrimSpace(a), TrimSpace(b))
  {
    ToUpperIs(TrimSpace(a), TrimSpace(b));
  }

  /** What is not marked as a ciphertext is handed back as it is, less the white space around
      it; what is marked fails exactly when the rest is no base64. */
  lemma DecryptIs(ciphertext: Bytes)
    ensures
      var raw := TrimSpace(ciphertext);
      if |raw| >= 9 && raw[..9] == "vault:v1:" then
        var plaintext := Base64.Decode(raw[9..]);
        (Decrypt(ciphertext).Err? <==> plaintext.None?) &&
        (plaintext.Some? ==> Decrypt(ciphertext) == Ok(plaintext.value))
      else Decrypt(ciphertext) == Ok(raw)
  {
    var raw := TrimSpace(ciphertext);
    assert |PREFIX| == 9 && (|raw| >= 9 && raw[..9] == "vault:v1:" <==> HasPrefix(raw, PREFIX));
  }

  lemma TrimUpper(s: Bytes)
    ensures ToUpper(TrimSpace(ToUpper(s))) == ToUpper(TrimSpace(s))
  {
    TrimLeftUpper(s);
    TrimRightUpper(TrimLeft(s));
    UpperTwice(TrimSpace(s));
  }

  lemma UpperTwice(s: Bytes)
    ensures ToUpper(ToUpper(s)) == ToUpper(s)
  {
  }

  lemma {:induction false} TrimLeftUpper(s: Bytes)
    ensures TrimLeft(ToUpper(s)) == ToUpper(TrimLeft(s))
  {
    if s == [] {
      assert ToUpper(s) == [];
    } else {
      assert ToUpper(s)[0] == Upper(s[0]);
      assert IsSpace(ToUpper(s)[0]) <==> IsSpace(s[0]);
      if IsSpace(s[0]) {
        assert ToUpper(s)[1..] == ToUpper(s[1..]);
        TrimLeftUpper(s[1..]);
      }
    }
  }

  lemma {:induction false} TrimRightUpper(s: Bytes)
    ensures TrimRight(ToUpper(s)) == ToUpper(TrimRight(s))
  {
    if s == [] {
      assert ToUpper(s) == [];
    } else {
      assert ToUpper(s)[|s| - 1] == Upper(s[|s| - 1]);
      assert IsSpace(ToUpper(s)[|s| - 1]) <==> IsSpace(s[|s| - 1]);
      if IsSpace(s[|s| - 1]) {
        assert ToUpper(s)[..|s| - 1] == ToUpper(s[..|s| - 1]);
        TrimRightUpper(s[..|s| - 1]);
      }
    }
  }
}
