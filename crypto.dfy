/**
 * The compact `nonce:ciphertext` form of an encrypted payload, and the
 * checks `decrypt` makes before it hands the parts to the cipher.  The
 * base64 codec and AES-256-GCM are parameters of the model.
 */
module Crypto {
  import opened Common
  import opened Errors

  type byte = bv8

  const NonceBytes := 12

  /** `EncryptedData`: both parts are base64 text. */
  datatype EncryptedData = EncryptedData(nonceB64: string, ciphertextB64: string)

  /** Whatever follows a colon-free prefix, the first colon is right after it. */
  lemma {:induction false} FirstIndexPastPrefix(p: string, rest: string, c: char)
    requires c !in p
    ensures FirstIndex(p + [c] + rest, c) == |p|
  {
    if |p| > 0 {
      assert (p + [c] + rest)[1..] == p[1..] + [c] + rest;
      FirstIndexPastPrefix(p[1..], rest, c);
    }
  }

  /** `to_compact`. */
  function ToCompact(d: EncryptedData): (s: string)
    ensures |s| == |d.nonceB64| + 1 + |d.ciphertextB64|
    ensures s[|d.nonceB64|] == ':'
  {
    d.nonceB64 + ":" + d.ciphertextB64
  }

  /** `from_compact`: split at the first ':' only. */
  function FromCompact(compact: string): (r: Result<EncryptedData>)
    ensures r.Err? <==> ':' !in compact
    ensures r.Err? ==> r.error == Crypto("Missing ciphertext component")
    ensures r.Ok? ==> ':' !in r.value.nonceB64
  {
    var i := FirstIndex(compact, ':');
    if i == |compact| then Err(Crypto("Missing ciphertext component"))
    else Ok(EncryptedData(compact[..i], compact[i + 1..]))
  }

  /** Decoding an encoding gives the payload back when the nonce has no colon. */
  lemma FromCompactOfToCompact(d: EncryptedData)
    requires ':' !in d.nonceB64
    ensures FromCompact(ToCompact(d)) == Ok(d)
  {
    FirstIndexPastPrefix(d.nonceB64, d.ciphertextB64, ':');
    var s := ToCompact(d);
    assert s[..|d.nonceB64|] == d.nonceB64;
    assert s[|d.nonceB64| + 1..] == d.ciphertextB64;
  }

  /** Encoding a decoded string gives the string back. */
  lemma ToCompactOfFromCompact(s: string)
    requires ':' in s
    ensures FromCompact(s).Ok? && ToCompact(FromCompact(s).value) == s
  {
    var i := FirstIndex(s, ':');
    assert s[..i] + ":" + s[i + 1..] == s;
  }

  /** Colons after the first one belong to the ciphertext. */
  lemma LaterColonsStayInCiphertext(nonce: string, ciphertext: string)
    requires ':' !in nonce
    ensures FromCompact(nonce + ":" + ciphertext) == Ok(EncryptedData(nonce, ciphertext))
  {
    FromCompactOfToCompact(EncryptedData(nonce, ciphertext));
  }

  /**
   * `decrypt` up to the cipher: split, decode the nonce, insist on 12
   * bytes, decode the ciphertext, then open it.  `decode` is base64 (its
   * failure is already a Crypto error) and `open` is AES-256-GCM.
   */
  function Decrypt(encrypted: string, decode: string -> Result<seq<byte>>,
                   open: (seq<byte>, seq<byte>) -> Option<seq<byte>>): (r: Result<seq<byte>>)
    ensures ':' !in encrypted ==> r == Err(Crypto("Missing ciphertext component"))
    ensures r.Ok? ==> (':' in encrypted
      && decode(FromCompact(encrypted).value.nonceB64).Ok?
      && |decode(FromCompact(encrypted).value.nonceB64).value| == NonceBytes)
    ensures (':' in encrypted && decode(FromCompact(encrypted).value.nonceB64).Ok?
             && |decode(FromCompact(encrypted).value.nonceB64).value| != NonceBytes)
            ==> r == Err(Crypto("Invalid nonce length"))
    ensures ':' in encrypted ==>
      var c := FromCompact(encrypted).value;
      var nonce := decode(c.nonceB64);
      var ciphertext := decode(c.ciphertextB64);
      && (nonce.Err? ==> r == Err(nonce.error))
      && (nonce.Ok? && |nonce.value| == NonceBytes && ciphertext.Err? ==> r == Err(ciphertext.error))
      && (r.Ok? <==> nonce.Ok? && |nonce.value| == NonceBytes && ciphertext.Ok? && open(nonce.value, ciphertext.value).Some?)
      && (r.Ok? ==> r.value == open(nonce.value, ciphertext.value).value)
      && (nonce.Ok? && |nonce.value| == NonceBytes && ciphertext.Ok? && open(nonce.value, ciphertext.value).None? ==>
            r == Err(Crypto("Invalid encrypted payload or key")))
  {
    match FromCompact(encrypted)
    case Err(e) => Err(e)
    case Ok(compact) =>
      match decode(compact.nonceB64)
      case Err(e) => Err(e)
      case Ok(nonce) =>
        if |nonce| != NonceBytes then Err(Crypto("Invalid nonce length"))
        else
          match decode(compact.ciphertextB64)
          case Err(e) => Err(e)
          case Ok(ciphertext) =>
            match open(nonce, ciphertext)
            case None => Err(Crypto("Invalid encrypted payload or key"))
            case Some(plain) => Ok(plain)
  }
}
