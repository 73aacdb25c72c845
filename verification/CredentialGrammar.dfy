/**
 What an update-credentials transaction is, the bytes that sign it and the screens that review it:
 src/handler/sign_update_credential.c and src/handler/sign_credential_deployment.c.
 */
module CredentialGrammar {
  import opened Bytes

  const KEY_SIZE := 34
  const DETAILS_SIZE := 54
  const AR_SIZE := 100
  const DATES_SIZE := 6
  const ID_SIZE := 48
  const MAX_PROVIDER := 1_000_000_000

  /** A revealed attribute: its tag and its text. */
  datatype Attribute = Attribute(tag: byte, value: seq<byte>)

  /**
   An added credential. A key is its index, scheme and key bytes; `details` are the signature
   threshold, the registration id, the identity provider and the revocation threshold; an
   anonymity revoker is its identity and share.
   */
  datatype Credential = Credential(
    index: byte, keys: seq<seq<byte>>, details: seq<byte>, revokers: seq<seq<byte>>, dates: seq<byte>,
    attributes: seq<Attribute>, proofs: seq<byte>)

  /** The credentials that are added, the ids of those removed, and the new threshold. */
  datatype Update = Update(added: seq<Credential>, removed: seq<seq<byte>>, threshold: byte)

  /** The identity provider within the details. */
  function Provider(details: seq<byte>): nat
    requires |details| >= 53
  {
    FromBe(details[49..53])
  }

  predicate Sizes(chunks: seq<seq<byte>>, n: nat) {
    forall i :: 0 <= i < |chunks| ==> |chunks[i]| == n
  }

  predicate ValidAttribute(a: Attribute) {
    |a.value| <= UINT8_MAX && DisplayableText(a.value)
  }

  predicate ValidAttributes(attributes: seq<Attribute>) {
    forall i :: 0 <= i < |attributes| ==> ValidAttribute(attributes[i])
  }

  /** At least one key and one revoker, and every count fits its field. */
  predicate ValidCredential(c: Credential) {
    && 1 <= |c.keys| <= UINT8_MAX && Sizes(c.keys, KEY_SIZE)
    && |c.details| == DETAILS_SIZE && Provider(c.details) < MAX_PROVIDER
    && 1 <= |c.revokers| <= UINT16_MAX && Sizes(c.revokers, AR_SIZE)
    && |c.dates| == DATES_SIZE
    && |c.attributes| <= UINT16_MAX && ValidAttributes(c.attributes)
    && |c.proofs| <= UINT32_MAX
  }

  predicate ValidCredentials(cs: seq<Credential>) {
    forall i :: 0 <= i < |cs| ==> ValidCredential(cs[i])
  }

  predicate ValidUpdate(u: Update) {
    && |u.added| <= UINT8_MAX && ValidCredentials(u.added)
    && |u.removed| <= UINT8_MAX && Sizes(u.removed, ID_SIZE)
  }

  // ---- Serialisation ----

  function AttributeBytes(a: Attribute): seq<byte> {
    [a.tag] + ToBe(|a.value|, 1) + a.value
  }

  function AttributesBytes(attributes: seq<Attribute>): seq<byte> {
    if attributes == [] then [] else AttributeBytes(attributes[0]) + AttributesBytes(attributes[1..])
  }

  function KeysPart(keys: seq<seq<byte>>): seq<byte> {
    ToBe(|keys|, 1) + Flatten(keys)
  }

  function RevokersPart(revokers: seq<seq<byte>>): seq<byte> {
    ToBe(|revokers|, 2) + Flatten(revokers)
  }

  function AttributesPart(attributes: seq<Attribute>): seq<byte> {
    ToBe(|attributes|, 2) + AttributesBytes(attributes)
  }

  function ProofsPart(proofs: seq<byte>): seq<byte> {
    ToBe(|proofs|, 4) + proofs
  }

  function CredentialBytes(c: Credential): seq<byte> {
    [c.index] + KeysPart(c.keys) + c.details + RevokersPart(c.revokers) + c.dates + AttributesPart(c.attributes)
    + ProofsPart(c.proofs)
  }

  function CredentialsBytes(cs: seq<Credential>): seq<byte> {
    if cs == [] then [] else CredentialBytes(cs[0]) + CredentialsBytes(cs[1..])
  }

  /** The payload of the transaction. */
  function Payload(u: Update): seq<byte> {
    ToBe(|u.added|, 1) + CredentialsBytes(u.added) + (ToBe(|u.removed|, 1) + Flatten(u.removed)) + [u.threshold]
  }

  // ---- The screens ----

  /** What the user accepts on the way to the signing screen. */
  datatype Screen = Intro | Key(key: seq<byte>) | Revealed(attribute: Attribute) | Added(credential: Credential) | Removed(id: seq<byte>)

  function KeyScreens(keys: seq<seq<byte>>): seq<Screen> {
    seq(|keys|, i requires 0 <= i < |keys| => Key(keys[i]))
  }

  function RevealedScreens(attributes: seq<Attribute>): seq<Screen> {
    seq(|attributes|, i requires 0 <= i < |attributes| => Revealed(attributes[i]))
  }

  /** Every key but the last, every attribute, and the credential itself, which shows its last key. */
  function CredentialScreens(c: Credential): seq<Screen>
    requires c.keys != []
  {
    KeyScreens(c.keys[..|c.keys| - 1]) + RevealedScreens(c.attributes) + [Added(c)]
  }

  function CredentialsScreens(cs: seq<Credential>): seq<Screen>
    requires ValidCredentials(cs)
  {
    if cs == [] then [] else CredentialsScreens(cs[..|cs| - 1]) + CredentialScreens(cs[|cs| - 1])
  }

  function RemovedScreens(ids: seq<seq<byte>>): seq<Screen> {
    seq(|ids|, i requires 0 <= i < |ids| => Removed(ids[i]))
  }

  /** Everything accepted before the signing screen, in order. */
  function Screens(u: Update): seq<Screen>
    requires ValidUpdate(u)
  {
    [Intro] + CredentialsScreens(u.added) + RemovedScreens(u.removed)
  }

  // ---- Appending ----

  lemma {:induction false} AttributesAppend(attributes: seq<Attribute>, a: Attribute)
    ensures AttributesBytes(attributes + [a]) == AttributesBytes(attributes) + AttributeBytes(a)
  {
    if attributes == [] {
      assert [a][1..] == [];
      assert AttributesBytes([a]) == AttributeBytes(a) + AttributesBytes([]);
    } else {
      assert (attributes + [a])[1..] == attributes[1..] + [a];
      AttributesAppend(attributes[1..], a);
    }
  }

  lemma {:induction false} CredentialsAppend(cs: seq<Credential>, c: Credential)
    ensures CredentialsBytes(cs + [c]) == CredentialsBytes(cs) + CredentialBytes(c)
  {
    hide CredentialBytes;
    if cs == [] {
      assert [c][1..] == [];
      assert CredentialsBytes([c]) == CredentialBytes(c) + CredentialsBytes([]);
    } else {
      assert (cs + [c])[1..] == cs[1..] + [c];
      CredentialsAppend(cs[1..], c);
    }
  }

  // ---- Unique decoding ----

  lemma SplitAt(a: seq<byte>, b: seq<byte>, x: seq<byte>, y: seq<byte>)
    requires a + x == b + y && |a| == |b|
    ensures a == b && x == y
  {
    assert a == (a + x)[..|a|] && x == (a + x)[|a|..];
    assert b == (b + y)[..|b|] && y == (b + y)[|b|..];
  }

  /** A number in front of equal strings is the same number. */
  lemma SplitCount(m: nat, n: nat, k: nat, x: seq<byte>, y: seq<byte>)
    requires m < Pow256(k) && n < Pow256(k) && ToBe(m, k) + x == ToBe(n, k) + y
    ensures m == n && x == y
  {
    SplitAt(ToBe(m, k), ToBe(n, k), x, y);
    ToBeInjective(m, n, k);
  }

  lemma {:induction false} SplitChunks(a: seq<seq<byte>>, b: seq<seq<byte>>, n: nat, x: seq<byte>, y: seq<byte>)
    requires |a| == |b| && Sizes(a, n) && Sizes(b, n) && Flatten(a) + x == Flatten(b) + y
    ensures a == b && x == y
  {
    if a == [] {
      assert [] + x == x && [] + y == y;
    } else {
      assert Flatten(a) + x == a[0] + (Flatten(a[1..]) + x);
      assert Flatten(b) + y == b[0] + (Flatten(b[1..]) + y);
      SplitAt(a[0], b[0], Flatten(a[1..]) + x, Flatten(b[1..]) + y);
      SplitChunks(a[1..], b[1..], n, x, y);
      assert a == [a[0]] + a[1..] && b == [b[0]] + b[1..];
    }
  }

  lemma SplitAttribute(a: Attribute, b: Attribute, x: seq<byte>, y: seq<byte>)
    requires |a.value| <= UINT8_MAX && |b.value| <= UINT8_MAX && AttributeBytes(a) + x == AttributeBytes(b) + y
    ensures a == b && x == y
  {
    hide ToBe;
    Pow256Values();
    assert AttributeBytes(a) + x == [a.tag] + (ToBe(|a.value|, 1) + (a.value + x));
    assert AttributeBytes(b) + y == [b.tag] + (ToBe(|b.value|, 1) + (b.value + y));
    SplitAt([a.tag], [b.tag], ToBe(|a.value|, 1) + (a.value + x), ToBe(|b.value|, 1) + (b.value + y));
    SplitCount(|a.value|, |b.value|, 1, a.value + x, b.value + y);
    SplitAt(a.value, b.value, x, y);
  }

  lemma {:induction false} SplitAttributes(a: seq<Attribute>, b: seq<Attribute>, x: seq<byte>, y: seq<byte>)
    requires |a| == |b| && ValidAttributes(a) && ValidAttributes(b) && AttributesBytes(a) + x == AttributesBytes(b) + y
    ensures a == b && x == y
  {
    hide AttributeBytes, DisplayableText;
    if a == [] {
      assert [] + x == x && [] + y == y;
    } else {
      assert ValidAttribute(a[0]) && ValidAttribute(b[0]);
      assert AttributesBytes(a) + x == AttributeBytes(a[0]) + (AttributesBytes(a[1..]) + x);
      assert AttributesBytes(b) + y == AttributeBytes(b[0]) + (AttributesBytes(b[1..]) + y);
      SplitAttribute(a[0], b[0], AttributesBytes(a[1..]) + x, AttributesBytes(b[1..]) + y);
      SplitAttributes(a[1..], b[1..], x, y);
      assert a == [a[0]] + a[1..] && b == [b[0]] + b[1..];
    }
  }

  lemma SplitKeys(a: seq<seq<byte>>, b: seq<seq<byte>>, x: seq<byte>, y: seq<byte>)
    requires |a| <= UINT8_MAX && |b| <= UINT8_MAX && Sizes(a, KEY_SIZE) && Sizes(b, KEY_SIZE)
    requires KeysPart(a) + x == KeysPart(b) + y
    ensures a == b && x == y
  {
    hide ToBe, Flatten, Sizes;
    Pow256Values();
    assert KeysPart(a) + x == ToBe(|a|, 1) + (Flatten(a) + x) && KeysPart(b) + y == ToBe(|b|, 1) + (Flatten(b) + y);
    SplitCount(|a|, |b|, 1, Flatten(a) + x, Flatten(b) + y);
    SplitChunks(a, b, KEY_SIZE, x, y);
  }

  lemma SplitRevokers(a: seq<seq<byte>>, b: seq<seq<byte>>, x: seq<byte>, y: seq<byte>)
    requires |a| <= UINT16_MAX && |b| <= UINT16_MAX && Sizes(a, AR_SIZE) && Sizes(b, AR_SIZE)
    requires RevokersPart(a) + x == RevokersPart(b) + y
    ensures a == b && x == y
  {
    hide ToBe, Flatten, Sizes;
    Pow256Values();
    assert RevokersPart(a) + x == ToBe(|a|, 2) + (Flatten(a) + x) && RevokersPart(b) + y == ToBe(|b|, 2) + (Flatten(b) + y);
    SplitCount(|a|, |b|, 2, Flatten(a) + x, Flatten(b) + y);
    SplitChunks(a, b, AR_SIZE, x, y);
  }

  lemma SplitAttributesPart(a: seq<Attribute>, b: seq<Attribute>, x: seq<byte>, y: seq<byte>)
    requires |a| <= UINT16_MAX && |b| <= UINT16_MAX && ValidAttributes(a) && ValidAttributes(b)
    requires AttributesPart(a) + x == AttributesPart(b) + y
    ensures a == b && x == y
  {
    hide ToBe, AttributesBytes, ValidAttributes;
    Pow256Values();
    assert AttributesPart(a) + x == ToBe(|a|, 2) + (AttributesBytes(a) + x);
    assert AttributesPart(b) + y == ToBe(|b|, 2) + (AttributesBytes(b) + y);
    SplitCount(|a|, |b|, 2, AttributesBytes(a) + x, AttributesBytes(b) + y);
    SplitAttributes(a, b, x, y);
  }

  lemma SplitProofs(a: seq<byte>, b: seq<byte>, x: seq<byte>, y: seq<byte>)
    requires |a| <= UINT32_MAX && |b| <= UINT32_MAX && ProofsPart(a) + x == ProofsPart(b) + y
    ensures a == b && x == y
  {
    hide ToBe;
    Pow256Values();
    assert ProofsPart(a) + x == ToBe(|a|, 4) + (a + x) && ProofsPart(b) + y == ToBe(|b|, 4) + (b + y);
    SplitCount(|a|, |b|, 4, a + x, b + y);
    SplitAt(a, b, x, y);
  }

  lemma CredentialInOrder(c: Credential, x: seq<byte>)
    ensures CredentialBytes(c) + x == [c.index] + (KeysPart(c.keys) + (c.details + (RevokersPart(c.revokers)
      + (c.dates + (AttributesPart(c.attributes) + (ProofsPart(c.proofs) + x))))))
  {
    hide KeysPart, RevokersPart, AttributesPart, ProofsPart;
  }

  lemma SplitCredential(a: Credential, b: Credential, x: seq<byte>, y: seq<byte>)
    requires ValidCredential(a) && ValidCredential(b) && CredentialBytes(a) + x == CredentialBytes(b) + y
    ensures a == b && x == y
  {
    hide KeysPart, RevokersPart, AttributesPart, ProofsPart, CredentialBytes, Sizes, ValidAttributes, FromBe;
    CredentialInOrder(a, x);
    CredentialInOrder(b, y);
    var a6, b6 := ProofsPart(a.proofs) + x, ProofsPart(b.proofs) + y;
    var a5, b5 := AttributesPart(a.attributes) + a6, AttributesPart(b.attributes) + b6;
    var a4, b4 := a.dates + a5, b.dates + b5;
    var a3, b3 := RevokersPart(a.revokers) + a4, RevokersPart(b.revokers) + b4;
    var a2, b2 := a.details + a3, b.details + b3;
    var a1, b1 := KeysPart(a.keys) + a2, KeysPart(b.keys) + b2;
    SplitAt([a.index], [b.index], a1, b1);
    SplitKeys(a.keys, b.keys, a2, b2);
    SplitAt(a.details, b.details, a3, b3);
    SplitRevokers(a.revokers, b.revokers, a4, b4);
    SplitAt(a.dates, b.dates, a5, b5);
    SplitAttributesPart(a.attributes, b.attributes, a6, b6);
    SplitProofs(a.proofs, b.proofs, x, y);
  }

  lemma {:induction false} SplitCredentials(a: seq<Credential>, b: seq<Credential>, x: seq<byte>, y: seq<byte>)
    requires |a| == |b| && ValidCredentials(a) && ValidCredentials(b) && CredentialsBytes(a) + x == CredentialsBytes(b) + y
    ensures a == b && x == y
  {
    hide CredentialBytes, ValidCredential;
    if a == [] {
      assert [] + x == x && [] + y == y;
    } else {
      assert CredentialsBytes(a) + x == CredentialBytes(a[0]) + (CredentialsBytes(a[1..]) + x);
      assert CredentialsBytes(b) + y == CredentialBytes(b[0]) + (CredentialsBytes(b[1..]) + y);
      assert ValidCredential(a[0]) && ValidCredential(b[0]);
      SplitCredential(a[0], b[0], CredentialsBytes(a[1..]) + x, CredentialsBytes(b[1..]) + y);
      SplitCredentials(a[1..], b[1..], x, y);
      assert a == [a[0]] + a[1..] && b == [b[0]] + b[1..];
    }
  }

  /** A payload is the serialisation of one update only. */
  lemma PayloadInjective(a: Update, b: Update)
    requires ValidUpdate(a) && ValidUpdate(b) && Payload(a) == Payload(b)
    ensures a == b
  {
    hide CredentialsBytes, ValidCredentials, ToBe, Flatten, Sizes;
    Pow256Values();
    var ra, rb := Flatten(a.removed) + [a.threshold], Flatten(b.removed) + [b.threshold];
    var xa, xb := ToBe(|a.removed|, 1) + ra, ToBe(|b.removed|, 1) + rb;
    assert Payload(a) == ToBe(|a.added|, 1) + (CredentialsBytes(a.added) + xa);
    assert Payload(b) == ToBe(|b.added|, 1) + (CredentialsBytes(b.added) + xb);
    SplitCount(|a.added|, |b.added|, 1, CredentialsBytes(a.added) + xa, CredentialsBytes(b.added) + xb);
    SplitCredentials(a.added, b.added, xa, xb);
    SplitCount(|a.removed|, |b.removed|, 1, ra, rb);
    SplitChunks(a.removed, b.removed, ID_SIZE, [a.threshold], [b.threshold]);
  }
}
