/**
 The canonical encoding and hash of a revision, and the signed revisions built on it. The digest
 and the signature scheme are parameters: only "what a key signs verifies under its public key"
 is ever assumed of the scheme.
 */
module Signing {
  import opened Bytes

  /** The six fields that a revision's canonical hash covers. */
  datatype Content = Content(
    vault: Word, account: Word, parent: Word, device: Word, schema: byte, payload: Bytes)

  const SIGNED_REVISION_DOMAIN: Bytes :=
    // "pangolin-chain-signed-revision-v0"
    [112, 97, 110, 103, 111, 108, 105, 110, 45, 99, 104, 97, 105, 110, 45, 115, 105, 103, 110, 101,
     100, 45, 114, 101, 118, 105, 115, 105, 111, 110, 45, 118, 48]

  const BODY_LEN := 32 * 4 + 1 + 32

  /** The body: four identifiers, the schema byte, the payload's digest. */
  function Body(c: Content, payloadDigest: Word): (b: Bytes)
    ensures |b| == BODY_LEN
  {
    c.vault + c.account + c.parent + c.device + [c.schema] + payloadDigest
  }

  /** Writes `w` at offset `o` of the buffer, behind `front`, and moves the offset past it. */
  method CopyWord(buf: array<byte>, o: nat, w: Word, ghost front: Bytes) returns (next: nat)
    requires o + 32 <= buf.Length && buf[..o] == front
    modifies buf
    ensures next == o + 32
    ensures buf[..next] == front + w
  {
    forall k | 0 <= k < 32 {
      buf[o + k] := w[k];
    }
    next := o + 32;
  }

  /** The four identifiers, one behind the other. */
  method CopyIds(buf: array<byte>, c: Content) returns (next: nat)
    requires buf.Length == BODY_LEN
    modifies buf
    ensures next == 128 && buf[..next] == c.vault + c.account + c.parent + c.device
  {
    next := CopyWord(buf, 0, c.vault, []);
    assert [] + c.vault == c.vault;
    next := CopyWord(buf, next, c.account, c.vault);
    next := CopyWord(buf, next, c.parent, c.vault + c.account);
    next := CopyWord(buf, next, c.device, c.vault + c.account + c.parent);
  }

  method EncodeCanonicalBody(c: Content, payloadDigest: Word) returns (buf: array<byte>)
    ensures fresh(buf) && buf[..] == Body(c, payloadDigest)
  {
    buf := new byte[BODY_LEN](_ => 0);
    var o := CopyIds(buf, c);
    ghost var ids := buf[..o];
    buf[o] := c.schema;
    o := o + 1;
    assert buf[..o] == ids + [c.schema];
    o := CopyWord(buf, o, payloadDigest, ids + [c.schema]);
    assert buf[..] == buf[..o];
  }

  function CanonicalHash(k: Hash, c: Content): Word {
    k(SIGNED_REVISION_DOMAIN + Body(c, k(c.payload)))
  }

  method ComputeCanonicalHash(k: Hash, c: Content) returns (digest: Word)
    ensures digest == CanonicalHash(k, c)
  {
    var body := EncodeCanonicalBody(c, k(c.payload));
    var toHash := SIGNED_REVISION_DOMAIN;
    toHash := toHash + body[..];
    digest := k(toHash);
  }

  /** The byte strings hashed to obtain the canonical hash of `c`. */
  function Preimages(k: Hash, c: Content): set<Bytes> {
    {c.payload, SIGNED_REVISION_DOMAIN + Body(c, k(c.payload))}
  }

  /** Where each field stands in the 161 bytes. */
  lemma {:induction false} BodyLayout(c: Content, payloadDigest: Word)
    ensures var b := Body(c, payloadDigest);
            && |b| == 161
            && b[0..32] == c.vault && b[32..64] == c.account && b[64..96] == c.parent && b[96..128] == c.device
            && b[128] == c.schema && b[129..161] == payloadDigest
  {
  }

  /** The 161-byte body is injective in all six fields. */
  lemma {:induction false} BodyInjective(a: Content, da: Word, b: Content, db: Word)
    requires Body(a, da) == Body(b, db)
    ensures da == db && a.(payload := b.payload) == b
  {
    var x, y := Body(a, da), Body(b, db);
    assert x[..32] == a.vault && y[..32] == b.vault;
    assert x[32..64] == a.account && y[32..64] == b.account;
    assert x[64..96] == a.parent && y[64..96] == b.parent;
    assert x[96..128] == a.device && y[96..128] == b.device;
    assert x[128] == a.schema && y[128] == b.schema;
    assert x[129..] == da && y[129..] == db;
  }

  /**
   The canonical hash binds every field: equal hashes mean equal contents, or two different byte
   strings, one hashed for each content, with the same digest.
   */
  lemma {:induction false} CanonicalHashBinds(k: Hash, a: Content, b: Content) returns (x: Bytes, y: Bytes)
    requires CanonicalHash(k, a) == CanonicalHash(k, b)
    ensures a == b || (x in Preimages(k, a) && y in Preimages(k, b) && x != y && k(x) == k(y))
  {
    x, y := SIGNED_REVISION_DOMAIN + Body(a, k(a.payload)), SIGNED_REVISION_DOMAIN + Body(b, k(b.payload));
    if x == y {
      assert x[|SIGNED_REVISION_DOMAIN|..] == Body(a, k(a.payload));
      assert y[|SIGNED_REVISION_DOMAIN|..] == Body(b, k(b.payload));
      BodyInjective(a, k(a.payload), b, k(b.payload));
      x, y := a.payload, b.payload;
    }
  }

  // ---------------------------------------------------------------------
  // Signed revisions
  // ---------------------------------------------------------------------

  /** Ed25519 as the code uses it: seeds, public keys, signatures over digests. */
  datatype Scheme = Scheme(
    publicKey: Word -> Word,
    canonicalKey: Word -> bool,
    sign: (Word, Word) -> Bytes,
    verify: (Word, Word, Bytes) -> bool)

  ghost predicate Correct(e: Scheme) {
    forall seed: Word, m: Word ::
      e.canonicalKey(e.publicKey(seed)) && e.verify(e.publicKey(seed), m, e.sign(seed, m))
  }

  datatype SignedRevision = SignedRevision(content: Content, signature: Bytes)

  /** The content that the device key `seed` publishes for the given fields. */
  function ContentBy(e: Scheme, seed: Word, vault: Word, account: Word, parent: Word, schema: byte,
                     payload: Bytes): Content {
    Content(vault, account, parent, e.publicKey(seed), schema, payload)
  }

  function BuildSignedRevision(k: Hash, e: Scheme, seed: Word, vault: Word, account: Word, parent: Word, schema: byte,
                               payload: Bytes): SignedRevision
  {
    var content := ContentBy(e, seed, vault, account, parent, schema, payload);
    SignedRevision(content, e.sign(seed, CanonicalHash(k, content)))
  }

  predicate VerifySignedRevision(k: Hash, e: Scheme, s: SignedRevision) {
    e.canonicalKey(s.content.device)
    && e.verify(s.content.device, CanonicalHash(k, s.content), s.signature)
  }

  /** A revision built with any key verifies, and its device field is that key's public half. */
  lemma {:induction false} BuiltVerifies(k: Hash, e: Scheme, seed: Word, vault: Word, account: Word, parent: Word,
                                         schema: byte, payload: Bytes)
    requires Correct(e)
    ensures VerifySignedRevision(k, e, BuildSignedRevision(k, e, seed, vault, account, parent, schema, payload))
    ensures BuildSignedRevision(k, e, seed, vault, account, parent, schema, payload).content.device == e.publicKey(seed)
  {
  }

  /** No signature verifies for two different digests under one key. */
  ghost predicate Binding(e: Scheme) {
    forall key: Word, m: Word, m': Word, signature: Bytes ::
      e.verify(key, m, signature) && e.verify(key, m', signature) ==> m == m'
  }

  /**
   A verified revision carries a canonical device id and a signature of its own canonical hash under it.
   With a scheme that binds, a signature that verifies for one content verifies for no other of the same
   device, unless two byte strings with the same digest are at hand.
   */
  lemma {:induction false} VerifiedBinds(k: Hash, e: Scheme, s: SignedRevision, c: Content) returns (x: Bytes, y: Bytes)
    requires VerifySignedRevision(k, e, s)
    ensures e.canonicalKey(s.content.device)
    ensures e.verify(s.content.device, CanonicalHash(k, s.content), s.signature)
    ensures Binding(e) && c.device == s.content.device && VerifySignedRevision(k, e, SignedRevision(c, s.signature)) ==>
              c == s.content || (x in Preimages(k, c) && y in Preimages(k, s.content) && x != y && k(x) == k(y))
  {
    x, y := c.payload, s.content.payload;
    if Binding(e) && c.device == s.content.device && VerifySignedRevision(k, e, SignedRevision(c, s.signature)) {
      x, y := CanonicalHashBinds(k, c, s.content);
    }
  }

}
