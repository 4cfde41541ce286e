// The associated data that binds each ciphertext to its row, and authenticated encryption as an
// abstract pair of functions.
module CipherContexts {
  import opened Wrappers
  import opened Text

  const SECRET_PREFIX := "vaultlog:secret:v1:"
  const WRAP_PREFIX := "vaultlog:dek-wrap:v1:"

  function SecretAadText(tenant: Uuid, vault: Uuid, secret: Uuid, version: int): string {
    SECRET_PREFIX + UuidText(tenant) + ":" + UuidText(vault) + ":" + UuidText(secret) + ":" + Decimal(version)
  }

  function WrapAadText(tenant: Uuid, keyVersion: int): string {
    WRAP_PREFIX + UuidText(tenant) + ":" + Decimal(keyVersion)
  }

  function SecretAad(tenant: Uuid, vault: Uuid, secret: Uuid, version: int): Bytes {
    Encode(SecretAadText(tenant, vault, secret, version))
  }

  function DekWrapAad(tenant: Uuid, keyVersion: int): Bytes { Encode(WrapAadText(tenant, keyVersion)) }

  // The layout, read back: prefix, the identifiers in this order and the decimal version, between colons.
  lemma AadReads(t: Uuid, v: Uuid, s: Uuid, n: int)
    ensures Decode(SecretAad(t, v, s, n)) ==
            Some("vaultlog:secret:v1:" + (UuidText(t) + (":" + (UuidText(v) + (":" + (UuidText(s) + (":" + Decimal(n))))))))
    ensures Decode(DekWrapAad(t, n)) == Some("vaultlog:dek-wrap:v1:" + (UuidText(t) + (":" + Decimal(n))))
  {
    hide UuidText, Decimal, Encode, Decode;
    DecodeEncode(SecretAadText(t, v, s, n));
    DecodeEncode(WrapAadText(t, n));
    assert SecretAadText(t, v, s, n) ==
           "vaultlog:secret:v1:" + (UuidText(t) + (":" + (UuidText(v) + (":" + (UuidText(s) + (":" + Decimal(n)))))));
    assert WrapAadText(t, n) == "vaultlog:dek-wrap:v1:" + (UuidText(t) + (":" + Decimal(n)));
  }

  lemma SecretAadInjective(t: Uuid, v: Uuid, s: Uuid, n: int, t': Uuid, v': Uuid, s': Uuid, n': int)
    requires SecretAad(t, v, s, n) == SecretAad(t', v', s', n')
    ensures t == t' && v == v' && s == s' && n == n'
  {
    hide UuidText, Decimal, Encode;
    var a, b := SecretAadText(t, v, s, n), SecretAadText(t', v', s', n');
    EncodeInjective(a, b);
    assert |SECRET_PREFIX| == 19;
    assert a[19..55] == UuidText(t) && b[19..55] == UuidText(t');
    assert a[56..92] == UuidText(v) && b[56..92] == UuidText(v');
    assert a[93..129] == UuidText(s) && b[93..129] == UuidText(s');
    assert a[130..] == Decimal(n) && b[130..] == Decimal(n');
    UuidTextInjective(t, t');
    UuidTextInjective(v, v');
    UuidTextInjective(s, s');
    DecimalInjective(n, n');
  }

  lemma DekWrapAadInjective(t: Uuid, n: int, t': Uuid, n': int)
    requires DekWrapAad(t, n) == DekWrapAad(t', n')
    ensures t == t' && n == n'
  {
    hide UuidText, Decimal, Encode;
    var a, b := WrapAadText(t, n), WrapAadText(t', n');
    EncodeInjective(a, b);
    assert |WRAP_PREFIX| == 21;
    assert a[21..57] == UuidText(t) && b[21..57] == UuidText(t');
    assert a[58..] == Decimal(n) && b[58..] == Decimal(n');
    UuidTextInjective(t, t');
    DecimalInjective(n, n');
  }

  // The two families never meet.
  lemma AadFamiliesDisjoint(t: Uuid, v: Uuid, s: Uuid, n: int, t': Uuid, n': int)
    ensures SecretAad(t, v, s, n) != DekWrapAad(t', n')
  {
    hide UuidText, Decimal, Encode;
    var a, b := SecretAadText(t, v, s, n), WrapAadText(t', n');
    assert a[9] == SECRET_PREFIX[9] == 's' && b[9] == WRAP_PREFIX[9] == 'd';
    if Encode(a) == Encode(b) { EncodeInjective(a, b); }
  }

  // seal(key, nonce, plaintext, aad) and open(key, nonce, ciphertext, aad).
  datatype Aead = Aead(seal: (Bytes, Bytes, Bytes, Bytes) -> Bytes, open: (Bytes, Bytes, Bytes, Bytes) -> Option<Bytes>)

  // Round trip, and failure on any mismatch of key, nonce or associated data.
  ghost predicate Lawful(a: Aead) {
    forall k, n, p, d, k', n', d' {:trigger a.open(k', n', a.seal(k, n, p, d), d')} ::
      a.open(k', n', a.seal(k, n, p, d), d') == if k' == k && n' == n && d' == d then Some(p) else None
  }
}
