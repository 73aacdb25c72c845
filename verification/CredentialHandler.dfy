/** The context the update-credentials handlers share and update in place, refining CredentialFlow. */
module CredentialHandler {
  import opened Bytes
  import opened CredentialFlow
  import opened CredentialGrammar
  import opened Decimal
  import opened DerivationPath
  import opened Hex
  import opened NumberHelpers
  import P = ProviderRow
  import opened Status
  import opened TxHash

  /** updateCredentialState_t; the initial state is the zero of a wiped context. */
  datatype Outer = OuterInitial | OuterIndex | OuterCredential | OuterIdCount | OuterId | OuterThreshold

  /** protocolState_t */
  datatype Inner =
    | InnerZero | KeysLength | VerificationKey | AwaitingKeyConfirm | SignatureThreshold | ArIdentity
    | CredentialDates | AttributeTag | AttributeValue | LengthOfProofs | ProofBytes | NewOrExisting

  function OuterOf(p: Phase): Outer {
    match p
    case Start => OuterInitial
    case Index => OuterIndex
    case IdCount => OuterIdCount
    case Ids => OuterId
    case Threshold => OuterThreshold
    case _ => OuterCredential
  }

  function InnerOf(p: Phase, pending: Pending): Inner {
    match p
    case KeyCount => KeysLength
    case Keys => if pending.KeyUp? then AwaitingKeyConfirm else VerificationKey
    case Details => SignatureThreshold
    case Revokers => ArIdentity
    case Dates => CredentialDates
    case Tag => AttributeTag
    case Value => AttributeValue
    case ProofLength => LengthOfProofs
    case Proofs => ProofBytes
    case _ => InnerZero
  }

  const OUT_OF: seq<byte> := [32, 111, 117, 116, 32, 111, 102, 32]

  lemma OutOfIsSpelled()
    ensures OUT_OF == Ascii(" out of ")
  {
  }

  /** The providers written to the provider buffer so far. */
  function Providers(s: State): (r: seq<nat>)
    requires Inv(s)
    ensures P.Fits(r)
  {
    var added := ProvidersOf(s.added);
    if 5 <= Rank(s.phase) <= 9 then
      ShortProvider(Provider(s.draft.details));
      added + [Provider(s.draft.details)]
    else added
  }

  function ProvidersOf(cs: seq<Credential>): (r: seq<nat>)
    requires ValidCredentials(cs)
    ensures |r| == |cs| && P.Fits(r)
    ensures forall i :: 0 <= i < |cs| ==> |cs[i].details| == DETAILS_SIZE && r[i] == Provider(cs[i].details)
  {
    if cs == [] then []
    else
      var n := |cs| - 1;
      assert ValidCredential(cs[n]);
      ShortProvider(Provider(cs[n].details));
      ProvidersOf(cs[..n]) + [Provider(cs[n].details)]
  }

  lemma ShortProvider(n: nat)
    ensures |Dec(n)| <= P.PROVIDER_SIZE <==> n < MAX_PROVIDER
  {
    Pow10Values();
    assert Pow10(9) == MAX_PROVIDER;
    DecLength(n, 9);
  }

  lemma ProvidersAppend(cs: seq<Credential>, c: Credential)
    requires ValidCredentials(cs) && ValidCredential(c)
    ensures ValidCredentials(cs + [c]) && ProvidersOf(cs + [c]) == ProvidersOf(cs) + [Provider(c.details)]
  {
    assert (cs + [c])[..|cs|] == cs;
  }

  /** At most eight digits, and no credential before had more. */
  predicate ProviderFits(before: seq<Credential>, c: Credential)
    requires ValidCredentials(before) && ValidCredential(c)
  {
    && |Dec(Provider(c.details))| <= 8
    && forall i :: 0 <= i < |before| ==> DigitCount(before[i]) <= DigitCount(c)
  }

  function DigitCount(c: Credential): nat
    requires ValidCredential(c)
  {
    |Dec(Provider(c.details))|
  }

  /** The parts of a state that the rows of an added credential depend on stay as they were. */
  predicate SameRows(s: State, t: State) {
    var m, n := Rank(s.phase), Rank(t.phase);
    && s.added == t.added
    && (3 < n <= 9 ==> 3 < m <= 9 && s.draft.keys == t.draft.keys)
    && (4 < n <= 9 <==> 4 < m <= 9)
    && (4 < n <= 9 ==> s.draft.details == t.draft.details && s.draft.revokers == t.draft.revokers && RevokerCount(s) == RevokerCount(t))
  }

  /** The declared number of revokers. */
  function RevokerCount(s: State): nat {
    |s.draft.revokers| + (if s.phase.Revokers? then s.revokersLeft else 0)
  }

  /** signCredentialDeploymentContext_t */
  class CredentialContext {
    var outer: Outer
    var inner: Inner
    var credentialDeploymentCount: uint8
    var credentialIdCount: uint8
    var numberOfVerificationKeys: uint8
    var anonymityRevocationListLength: uint16
    var attributeListLength: uint16
    var attributeTag: uint8
    var attributeValueLength: uint8
    var proofLength: uint32
    const credentialId: array<byte>
    const accountVerificationKey: array<byte>
    const signatureThreshold: array<byte>
    const anonymityRevocationThreshold: array<byte>
    const identityProviderIndex: array<byte>
    const attributeValue: array<byte>
    var arListHash: seq<byte>
    // The bytes whose hexadecimal the registration row shows.
    var regIdCred: seq<byte>
    // Outside the instruction context.
    var hash: seq<byte>
    var path: Path
    // The state of CredentialFlow these fields stand for.
    ghost var model: State

    ghost predicate Sized()
    {
      && credentialId.Length == 102 && accountVerificationKey.Length == 68 && signatureThreshold.Length == 4
      && anonymityRevocationThreshold.Length == 17 && identityProviderIndex.Length == P.PROVIDER_SIZE && attributeValue.Length == 256
    }

    ghost predicate Valid()
      reads this, accountVerificationKey, signatureThreshold, anonymityRevocationThreshold, identityProviderIndex
    {
      Sized() && Inv(model) && Counters(model) && Rows(model)
    }

    ghost predicate Counters(s: State)
      reads this`outer, this`inner, this`credentialDeploymentCount, this`credentialIdCount, this`numberOfVerificationKeys,
            this`anonymityRevocationListLength, this`attributeListLength, this`attributeTag, this`attributeValueLength,
            this`proofLength, this`hash, this`path
    {
      && outer == OuterOf(s.phase) && (2 <= Rank(s.phase) <= 9 ==> inner == InnerOf(s.phase, s.pending))
      && credentialDeploymentCount == s.credentialsLeft && credentialIdCount == s.idsLeft
      && numberOfVerificationKeys == s.keysLeft && anonymityRevocationListLength == s.revokersLeft
      && attributeListLength == s.attributesLeft && attributeValueLength == s.valueLength && proofLength == s.proofLeft
      && (s.phase.Value? ==> attributeTag == s.tag)
      && (!s.phase.Start? ==> hash == s.hash && path == s.path)
    }

    /** The rows that will review the credential under way, and the provider buffer. */
    ghost predicate Rows(s: State)
      requires Sized() && Inv(s)
      reads this`arListHash, this`regIdCred, accountVerificationKey, signatureThreshold, anonymityRevocationThreshold, identityProviderIndex
    {
      && Texts(s)
      && (4 < Rank(s.phase) <= 9 && |s.draft.details| == DETAILS_SIZE ==>
            arListHash == Flatten(s.draft.revokers) && regIdCred == s.draft.details[1..49])
    }

    /** The rows other than the digest of the revokers. */
    ghost predicate Texts(s: State)
      requires Sized() && Inv(s)
      reads accountVerificationKey, signatureThreshold, anonymityRevocationThreshold, identityProviderIndex
    {
      var r, c := Rank(s.phase), s.draft;
      && identityProviderIndex[..] == P.BufferAfter(Providers(s))
      && (3 < r <= 9 && c.keys != [] ==> ShowsKey(c.keys[|c.keys| - 1]))
      && (4 < r <= 9 && c.details != [] ==>
            && CString(signatureThreshold[..]) == Dec(c.details[0])
            && CString(anonymityRevocationThreshold[..]) == Dec(c.details[|c.details| - 1]) + OUT_OF + Dec(RevokerCount(s)))
    }

    ghost predicate ShowsKey(key: seq<byte>)
      reads accountVerificationKey
    {
      |key| == KEY_SIZE && CString(accountVerificationKey[..]) == Paginated(key[2..])
    }

    constructor ()
      ensures Valid() && model == START
    {
      outer, inner, credentialDeploymentCount, credentialIdCount := OuterInitial, InnerZero, 0, 0;
      numberOfVerificationKeys, anonymityRevocationListLength, attributeListLength := 0, 0, 0;
      attributeTag, attributeValueLength, proofLength, arListHash, hash, path := 0, 0, 0, [], [], Path([], Invalid);
      regIdCred := [];
      credentialId := new byte[102](_ => 0);
      accountVerificationKey := new byte[68](_ => 0);
      signatureThreshold := new byte[4](_ => 0);
      anonymityRevocationThreshold := new byte[17](_ => 0);
      identityProviderIndex := new byte[P.PROVIDER_SIZE](_ => 0);
      attributeValue := new byte[256](_ => 0);
      model := START;
      new;
      StartRows();
    }

    lemma StartInv()
      ensures Inv(START) && Providers(START) == []
    {
    }

    lemma StartRows()
      requires Sized() && forall i :: 0 <= i < P.PROVIDER_SIZE ==> identityProviderIndex[i] == 0
      ensures Inv(START) && Rows(START)
    {
      StartInv();
      assert identityProviderIndex[..] == seq(P.PROVIDER_SIZE, _ => 0 as byte);
    }

    method WipeFields()
      modifies this
      ensures Counters(START)
    {
      outer, inner, credentialDeploymentCount, credentialIdCount := OuterInitial, InnerZero, 0, 0;
      numberOfVerificationKeys, anonymityRevocationListLength, attributeListLength := 0, 0, 0;
      attributeTag, attributeValueLength, proofLength, arListHash, regIdCred := 0, 0, 0, [], [];
    }

    /** The dispatch guard, after a throw: the context is wiped. */
    method Clear()
      requires Sized()
      modifies this, identityProviderIndex
      ensures Valid() && model == START
    {
      hide Inv, Rows, Counters;
      WipeFields();
      Wipe(identityProviderIndex);
      StartRows();
      model := START;
    }

    lemma RowsStay(s: State, t: State)
      requires Sized() && Inv(s) && Inv(t) && Rows(s) && SameRows(s, t)
      ensures Rows(t)
    {
      hide Inv, CString, P.BufferAfter, ProvidersOf;
    }

    /** The fields stand for the next state, which reviews the same credential. */
    method Commit(ghost next: State)
      requires Sized() && Inv(model) && Inv(next) && Rows(model) && SameRows(model, next) && Counters(next)
      modifies this`model
      ensures Valid() && model == next
    {
      hide Inv, Rows, Counters;
      RowsStay(model, next);
      model := next;
    }

    // ---- The outer packets ----

    /** P2 0: header, kind and the number of credentials. */
    method HandleInitial(cdata: Data) returns (reply: Reply)
      requires Valid() && model.phase.Start?
      modifies this
      ensures Sized() && reply == TakeInitial(old(model), cdata).reply
      ensures reply.Open() ==> Valid() && model == TakeInitial(old(model), cdata).next
    {
      hide StartTransaction, Rows, P.BufferAfter, Inv;
      assert model == START by { StartIsStart(model); }
      match StartTransaction(cdata, KIND_UPDATE_CREDENTIALS)
      case StartThrown(sw) => return Throw(sw);
      case Started(signer, transcript, rest) =>
        path, hash := signer, transcript;
        if |rest| < 1 {
          return Throw(SWO_INCORRECT_DATA);
        }
        credentialDeploymentCount := rest[0];
        hash := hash + [rest[0]];
        if credentialDeploymentCount == 0 {
          outer := OuterIdCount;
        } else {
          outer := OuterIndex;
        }
        ghost var next := TakeInitial(model, cdata).next;
        InitialKeepsInv(model, cdata);
        Commit(next);
        return Continue;
    }

    lemma StartIsStart(s: State)
      requires Inv(s) && s.phase.Start?
      ensures s == START
    {
    }

    /** P2 1: the index of the next credential. */
    method HandleIndex(cdata: Data) returns (reply: Reply)
      requires Valid() && model.phase.Index? && model.pending.Nothing?
      modifies this
      ensures reply == TakeIndex(old(model), cdata).reply && Valid() && model == TakeIndex(old(model), cdata).next
    {
      hide Inv, Rows, P.BufferAfter;
      assert cdata[..1] == [cdata[0]];
      hash := hash + cdata[..1];
      outer, inner := OuterCredential, KeysLength;
      ghost var next := TakeIndex(model, cdata).next;
      IndexKeepsInv(model, cdata);
      Commit(next);
      return Ack;
    }

    /** P2 3: the number of removed credentials. */
    method HandleIdCount(cdata: Data) returns (reply: Reply)
      requires Valid() && model.phase.IdCount? && model.pending.Nothing?
      modifies this
      ensures reply == TakeIdCount(old(model), cdata).reply && Valid() && model == TakeIdCount(old(model), cdata).next
    {
      hide Inv, Rows, P.BufferAfter;
      credentialIdCount := cdata[0];
      assert cdata[..1] == [cdata[0]];
      hash := hash + cdata[..1];
      if credentialIdCount == 0 {
        outer := OuterThreshold;
      } else {
        outer := OuterId;
      }
      ghost var next := TakeIdCount(model, cdata).next;
      IdCountKeepsInv(model, cdata);
      Commit(next);
      return Ack;
    }

    /** P2 4: the id of a removed credential. */
    method HandleId(cdata: Data) returns (reply: Reply)
      requires Valid() && model.phase.Ids? && model.pending.Nothing? && model.idsLeft > 0
      modifies this, credentialId
      ensures Sized() && reply == TakeId(old(model), cdata).reply
      ensures reply.Open() ==>
                Valid() && model == TakeId(old(model), cdata).next && CString(credentialId[..]) == Paginated(cdata[..ID_SIZE])
    {
      hide Inv, Rows, P.BufferAfter, CString, Paginated;
      if |cdata| < 48 {
        return Throw(SWO_INCORRECT_DATA);
      }
      hash := hash + cdata[..48];
      var o := ToPaginatedHex(cdata[..48], credentialId);
      if o.Thrown? {
        assert false;
      }
      credentialIdCount := credentialIdCount - 1;
      if credentialIdCount == 0 {
        outer := OuterThreshold;
      }
      ghost var next := TakeId(model, cdata).next;
      IdKeepsInv(model, cdata);
      Commit(next);
      return Continue;
    }

    /** P2 5: the new threshold, and the signing screen. */
    method HandleThreshold(cdata: Data) returns (reply: Reply)
      requires Valid() && model.phase.Threshold? && model.pending.Nothing?
      modifies this
      ensures reply == TakeThreshold(old(model), cdata).reply && Valid() && model == TakeThreshold(old(model), cdata).next
    {
      hide Inv, Rows, P.BufferAfter;
      assert cdata[..1] == [cdata[0]];
      hash := hash + cdata[..1];
      ghost var next := TakeThreshold(model, cdata).next;
      ThresholdKeepsInv(model, cdata);
      Commit(next);
      return Sign;
    }

    // ---- The inner packets ----

    method HandleKeyCount(cdata: Data) returns (reply: Reply)
      requires Valid() && model.phase.KeyCount? && model.pending.Nothing?
      modifies this
      ensures reply == TakeKeyCount(old(model), cdata).reply && Valid() && model == TakeKeyCount(old(model), cdata).next
    {
      hide Inv, Rows, P.BufferAfter;
      numberOfVerificationKeys := cdata[0];
      assert cdata[..1] == [cdata[0]];
      hash := hash + cdata[..1];
      inner := VerificationKey;
      ghost var next := TakeKeyCount(model, cdata).next;
      KeyCountKeepsInv(model, cdata);
      Commit(next);
      return Ack;
    }

    /** A key: all but the last are reviewed at once, the last with its credential. */
    method HandleKey(cdata: Data) returns (reply: Reply)
      requires Valid() && model.phase.Keys? && model.pending.Nothing?
      modifies this, accountVerificationKey
      ensures Sized() && reply == TakeKey(old(model), cdata).reply
      ensures reply.Open() ==>
                Valid() && model == TakeKey(old(model), cdata).next && ShowsKey(cdata[..KEY_SIZE])
    {
      hide Inv, Rows, P.BufferAfter, CString, Paginated, Providers, ShowsKey;
      RowsProviders(model);
      ghost var was := model;
      if numberOfVerificationKeys == 0 {
        return Throw(ERROR_INVALID_STATE);
      }
      if |cdata| < 34 {
        return Throw(SWO_INCORRECT_DATA);
      }
      ParseVerificationKey(cdata);
      KeyKeepsInv(was, cdata);
      if numberOfVerificationKeys > 0 {
        inner := AwaitingKeyConfirm;
        reply := Continue;
      } else {
        inner := SignatureThreshold;
        reply := Ack;
      }
      CommitKey(TakeKey(was, cdata).next);
    }

    /** parseVerificationKey */
    method ParseVerificationKey(cdata: Data)
      requires Sized() && |cdata| >= KEY_SIZE && numberOfVerificationKeys > 0
      modifies this`hash, this`numberOfVerificationKeys, accountVerificationKey
      ensures hash == old(hash) + cdata[..KEY_SIZE] && numberOfVerificationKeys == old(numberOfVerificationKeys) - 1
      ensures ShowsKey(cdata[..KEY_SIZE])
    {
      hide CString, Paginated;
      hash := hash + cdata[..1];
      hash := hash + cdata[1..2];
      var verificationKey := cdata[2..34];
      hash := hash + verificationKey;
      assert cdata[..34] == cdata[..1] + cdata[1..2] + verificationKey && cdata[..34][2..] == verificationKey;
      var o := ToPaginatedHex(verificationKey, accountVerificationKey);
      if o.Thrown? {
        assert false;
      }
      numberOfVerificationKeys := numberOfVerificationKeys - 1;
    }

    method CommitKey(ghost next: State)
      requires Sized() && Inv(model) && Inv(next) && model.added == next.added && Rank(model.phase) < 5 && Rank(next.phase) < 5
      requires identityProviderIndex[..] == P.BufferAfter(Providers(model)) && Counters(next)
      requires next.draft.keys != [] && ShowsKey(next.draft.keys[|next.draft.keys| - 1])
      modifies this`model
      ensures Valid() && model == next
    {
      hide Inv, Rows, Counters, CString, P.BufferAfter, Providers, ShowsKey;
      KeyRows(model, next);
      model := next;
    }

    lemma RowsProviders(s: State)
      requires Sized() && Inv(s) && Rows(s)
      ensures identityProviderIndex[..] == P.BufferAfter(Providers(s))
    {
    }

    lemma KeyRows(s: State, t: State)
      requires Sized() && Inv(s) && Inv(t) && s.added == t.added && Rank(s.phase) < 5 && Rank(t.phase) < 5
      requires identityProviderIndex[..] == P.BufferAfter(Providers(s))
      requires t.draft.keys != [] && ShowsKey(t.draft.keys[|t.draft.keys| - 1])
      ensures Rows(t)
    {
      hide Inv, CString, P.BufferAfter, ProvidersOf, Paginated;
    }

    /** number_to_text, " out of ", bin_to_dec: sixteen characters at most, and the terminator. */
    method WriteRevocationThreshold(threshold: uint8, total: uint16)
      requires Sized()
      modifies anonymityRevocationThreshold
      ensures CString(anonymityRevocationThreshold[..]) == Dec(threshold) + OUT_OF + Dec(total)
    {
      hide Dec, CString, IsDigit;
      Pow10Values();
      DecLength(threshold, 3);
      DecLength(total, 5);
      var offset, o := NumberToText(anonymityRevocationThreshold, 0, threshold);
      assert anonymityRevocationThreshold[..offset] == Dec(threshold);
      forall i | 0 <= i < 8 {
        anonymityRevocationThreshold[offset + i] := OUT_OF[i];
      }
      assert anonymityRevocationThreshold[..offset + 8] == Dec(threshold) + OUT_OF;
      NoZero(Dec(threshold));
      o := BinToDec(anonymityRevocationThreshold, offset + 8, total);
    }

    lemma NoZero(digits: seq<byte>)
      requires forall i :: 0 <= i < |digits| ==> IsDigit(digits[i])
      ensures 0 !in digits + OUT_OF
    {
    }

    /** The identity provider: digits over whatever the buffer held, without a terminator. */
    method WriteProvider(provider: uint32, ghost before: seq<nat>) returns (o: Outcome)
      requires Sized() && P.Fits(before) && identityProviderIndex[..] == P.BufferAfter(before)
      modifies identityProviderIndex
      ensures o == if provider < MAX_PROVIDER then Returned else Thrown(ERROR_BUFFER_OVERFLOW)
      ensures o.Returned? ==>
                P.Fits(before + [provider]) && identityProviderIndex[..] == P.BufferAfter(before + [provider])
    {
      hide Dec, P.BufferAfter;
      ShortProvider(provider);
      ghost var was := identityProviderIndex[..];
      var end;
      end, o := NumberToText(identityProviderIndex, 0, provider);
      if o.Returned? {
        P.AppendedBuffer(before, provider);
        assert identityProviderIndex[..] == identityProviderIndex[..end] + identityProviderIndex[end..];
      }
    }

    /** The rows written from the packet of the details. */
    ghost predicate DetailsShown(cdata: seq<byte>, before: seq<nat>)
      requires Sized()
      reads this`arListHash, this`regIdCred, signatureThreshold, anonymityRevocationThreshold, identityProviderIndex
    {
      && |cdata| >= 56 && arListHash == [] && regIdCred == cdata[1..49]
      && CString(signatureThreshold[..]) == Dec(cdata[0])
      && CString(anonymityRevocationThreshold[..]) == Dec(cdata[53]) + OUT_OF + Dec(FromBe(cdata[54..56]))
      && P.Fits(before + [Provider(cdata)])
      && identityProviderIndex[..] == P.BufferAfter(before + [Provider(cdata)])
    }

    /** The packet of the details, up to the number of revokers. */
    method ReadDetails(cdata: Data, ghost before: seq<nat>) returns (sw: int)
      requires Sized() && P.Fits(before) && identityProviderIndex[..] == P.BufferAfter(before)
      modifies this`hash, this`anonymityRevocationListLength, this`arListHash, this`regIdCred,
               signatureThreshold, identityProviderIndex, anonymityRevocationThreshold
      ensures sw == if |cdata| < 53 then SWO_INCORRECT_DATA
                    else if Provider(cdata) >= MAX_PROVIDER then ERROR_BUFFER_OVERFLOW
                    else if |cdata| < 56 then SWO_INCORRECT_DATA else SWO_SUCCESS
      ensures sw == SWO_SUCCESS ==>
                && hash == old(hash) + cdata[..56] && anonymityRevocationListLength == FromBe(cdata[54..56])
                && DetailsShown(cdata, before)
    {
      hide Dec, CString, P.BufferAfter, FromBe;
      Pow10Values();
      DecLength(cdata[0], 3);
      assert signatureThreshold[..0] == [] && [] + Dec(cdata[0]) == Dec(cdata[0]);
      var o := BinToDec(signatureThreshold, 0, cdata[0]);
      hash := hash + cdata[..1];
      if |cdata| < 49 {
        return SWO_INCORRECT_DATA;
      }
      regIdCred := cdata[1..49];
      hash := hash + cdata[1..49];
      if |cdata| < 53 {
        return SWO_INCORRECT_DATA;
      }
      Pow256Values();
      o := WriteProvider(FromBe(cdata[49..53]), before);
      if o.Thrown? {
        return o.sw;
      }
      hash := hash + cdata[49..53];
      if |cdata| < 54 {
        return SWO_INCORRECT_DATA;
      }
      hash := hash + cdata[53..54];
      if |cdata| < 56 {
        return SWO_INCORRECT_DATA;
      }
      anonymityRevocationListLength := FromBe(cdata[54..56]);
      arListHash := [];
      hash := hash + cdata[54..56];
      WriteRevocationThreshold(cdata[53], anonymityRevocationListLength);
      assert cdata[..56] == cdata[..1] + cdata[1..49] + cdata[49..53] + cdata[53..54] + cdata[54..56];
      return SWO_SUCCESS;
    }

    lemma DetailsRows(s: State, cdata: Data)
      requires Sized() && Inv(s) && s.phase.Details? && s.pending.Nothing? && TakeDetails(s, cdata).reply.Open()
      requires s.draft.keys != [] && ShowsKey(s.draft.keys[|s.draft.keys| - 1])
      requires DetailsShown(cdata, Providers(s))
      ensures var t := TakeDetails(s, cdata).next; Inv(t) && Rows(t)
    {
      hide Inv, Dec, CString, P.BufferAfter, FromBe, Providers, TakeDetails, ShowsKey, OUT_OF, Flatten;
      DetailsTaken(s, cdata);
    }

    lemma DetailsTaken(s: State, cdata: Data)
      requires Inv(s) && s.phase.Details? && s.pending.Nothing? && TakeDetails(s, cdata).reply.Open()
      ensures var t := TakeDetails(s, cdata).next;
        && Inv(t) && Providers(t) == Providers(s) + [Provider(cdata)] && t.phase.Revokers? && t.draft.keys == s.draft.keys
        && |t.draft.details| == DETAILS_SIZE && t.draft.details[0] == cdata[0] && t.draft.details[53] == cdata[53]
        && t.draft.details[1..49] == cdata[1..49]
        && RevokerCount(t) == FromBe(cdata[54..56]) && Flatten(t.draft.revokers) == []
    {
      hide Inv, FromBe, ProvidersOf, Providers, Flatten;
      DetailsKeepsInv(s, cdata);
      NoRevokersYet(s);
      ProvidersTaken(s, TakeDetails(s, cdata).next, cdata);
      assert Flatten([]) == [] by { NoChunks(); }
    }

    lemma NoChunks()
      ensures Flatten([]) == []
    {
    }

    lemma ProvidersTaken(s: State, t: State, cdata: Data)
      requires Inv(s) && Inv(t) && s.phase.Details? && t.phase.Revokers? && |cdata| >= 56
      requires t.added == s.added && t.draft.details == cdata[..54]
      ensures Providers(t) == Providers(s) + [Provider(cdata)]
    {
      hide Inv, FromBe, ProvidersOf;
      assert cdata[..54][49..53] == cdata[49..53];
    }

    lemma NoRevokersYet(s: State)
      requires Inv(s) && s.phase.Details?
      ensures s.draft.revokers == [] && s.draft.keys != [] && s.keysLeft == 0
    {
    }

    /** The details: every row that will review the credential, and the declared number of revokers. */
    method HandleDetails(cdata: Data) returns (reply: Reply)
      requires Valid() && model.phase.Details? && model.pending.Nothing?
      modifies this, signatureThreshold, identityProviderIndex, anonymityRevocationThreshold
      ensures Sized() && reply == TakeDetails(old(model), cdata).reply
      ensures reply.Open() ==> Valid() && model == TakeDetails(old(model), cdata).next
    {
      hide Inv, Rows, P.BufferAfter, CString, Providers, FromBe, Dec, ShowsKey, OUT_OF, DetailsShown, TakeDetails;
      NoRevokersYet(model);
      RowsBefore(model);
      DetailsReply(model, cdata);
      ghost var was := model;
      if numberOfVerificationKeys != 0 {
        assert false;
        return Throw(ERROR_INVALID_STATE);
      }
      var sw := ReadDetails(cdata, Providers(was));
      if sw != SWO_SUCCESS {
        return Throw(sw);
      }
      inner := ArIdentity;
      CommitDetails(cdata);
      reply := Ack;
    }

    lemma DetailsReply(s: State, cdata: Data)
      requires s.keysLeft == 0
      ensures TakeDetails(s, cdata).reply
           == if |cdata| < 53 then Throw(SWO_INCORRECT_DATA)
              else if Provider(cdata) >= MAX_PROVIDER then Throw(ERROR_BUFFER_OVERFLOW)
              else if |cdata| < 56 then Throw(SWO_INCORRECT_DATA) else Ack
    {
    }

    method CommitDetails(ghost cdata: Data)
      requires Sized() && Inv(model) && model.phase.Details? && model.pending.Nothing? && TakeDetails(model, cdata).reply.Open()
      requires model.draft.keys != [] && ShowsKey(model.draft.keys[|model.draft.keys| - 1])
      requires DetailsShown(cdata, Providers(model))
      requires outer == OuterCredential && inner == ArIdentity && hash == model.hash + cdata[..56] && path == model.path
      requires credentialDeploymentCount == model.credentialsLeft && credentialIdCount == model.idsLeft
      requires numberOfVerificationKeys == model.keysLeft && anonymityRevocationListLength == FromBe(cdata[54..56])
      requires attributeListLength == model.attributesLeft && attributeValueLength == model.valueLength
      requires proofLength == model.proofLeft
      modifies this`model
      ensures Valid() && model == TakeDetails(old(model), cdata).next
    {
      hide Inv, Dec, CString, P.BufferAfter, FromBe, Providers, ShowsKey, OUT_OF, Flatten, Rows, DetailsShown;
      DetailsRows(model, cdata);
      model := TakeDetails(model, cdata).next;
    }

    lemma RowsBefore(s: State)
      requires Sized() && Inv(s) && Rows(s) && s.phase.Details?
      ensures identityProviderIndex[..] == P.BufferAfter(Providers(s))
      ensures s.draft.keys != [] && ShowsKey(s.draft.keys[|s.draft.keys| - 1])
    {
    }

    /** A revoker: hashed, and folded into the digest that reviews the list. */
    method HandleRevoker(cdata: Data) returns (reply: Reply)
      requires Valid() && model.phase.Revokers? && model.pending.Nothing?
      modifies this
      ensures Sized() && reply == TakeRevoker(old(model), cdata).reply
      ensures reply.Open() ==> Valid() && model == TakeRevoker(old(model), cdata).next
    {
      hide Inv, Rows, P.BufferAfter, CString, Providers, FromBe, Dec, Flatten;
      if anonymityRevocationListLength == 0 {
        return Throw(ERROR_INVALID_STATE);
      }
      var ok := ReadRevoker(cdata);
      if !ok {
        return Throw(SWO_INCORRECT_DATA);
      }
      if anonymityRevocationListLength == 1 {
        inner := CredentialDates;
      }
      anonymityRevocationListLength := anonymityRevocationListLength - 1;
      RevokerKeepsInv(model, cdata);
      FoldRevoker(cdata, TakeRevoker(model, cdata).next);
      reply := Ack;
    }

    method ReadRevoker(cdata: Data) returns (ok: bool)
      modifies this`hash
      ensures ok <==> |cdata| >= AR_SIZE
      ensures ok ==> hash == old(hash) + cdata[..AR_SIZE]
    {
      if |cdata| < 4 {
        return false;
      }
      hash := hash + cdata[..4];
      if |cdata| < 100 {
        return false;
      }
      hash := hash + cdata[4..100];
      assert cdata[..100] == cdata[..4] + cdata[4..100];
      return true;
    }

    /** Fold the revoker into the digest of the list. */
    method FoldRevoker(cdata: Data, ghost next: State)
      requires Sized() && Inv(model) && model.phase.Revokers? && Rows(model) && Inv(next) && Counters(next)
      requires TakeRevoker(model, cdata).reply.Open() && next == TakeRevoker(model, cdata).next
      modifies this`arListHash, this`model
      ensures Valid() && model == next
    {
      hide Inv, Texts, Counters, Flatten, TakeRevoker;
      RevokerTaken(model, cdata);
      arListHash := arListHash + cdata[..4];
      arListHash := arListHash + cdata[4..100];
      assert cdata[..100] == cdata[..4] + cdata[4..100];
      FlattenAppend(model.draft.revokers, cdata[..AR_SIZE]);
      RevokerTexts(model, next);
      model := next;
    }

    lemma RevokerTexts(s: State, t: State)
      requires Sized() && Inv(s) && Inv(t) && Texts(s) && s.phase.Revokers? && (t.phase.Revokers? || t.phase.Dates?)
      requires s.added == t.added && t.draft == s.draft.(revokers := t.draft.revokers) && RevokerCount(t) == RevokerCount(s)
      ensures Texts(t)
    {
      hide Inv, CString, P.BufferAfter, Providers, RevokerCount, Dec, ShowsKey, OUT_OF;
      RevokerProviders(s, t);
    }

    lemma RevokerProviders(s: State, t: State)
      requires Inv(s) && Inv(t) && s.phase.Revokers? && (t.phase.Revokers? || t.phase.Dates?)
      requires s.added == t.added && t.draft.details == s.draft.details
      ensures Providers(s) == Providers(t)
    {
      hide Inv, ProvidersOf, FromBe;
    }

    lemma RevokerTaken(s: State, cdata: Data)
      requires Inv(s) && s.phase.Revokers? && TakeRevoker(s, cdata).reply.Open()
      ensures var t := TakeRevoker(s, cdata).next;
        && |cdata| >= AR_SIZE && (t.phase.Revokers? || t.phase.Dates?) && s.added == t.added
        && t.draft == s.draft.(revokers := s.draft.revokers + [cdata[..AR_SIZE]]) && RevokerCount(t) == RevokerCount(s)
        && |s.draft.details| == DETAILS_SIZE && s.draft.keys != []
    {
      hide Inv;
      DraftHasDetails(s);
    }

    lemma DraftHasDetails(s: State)
      requires Inv(s) && 4 < Rank(s.phase) <= 9
      ensures |s.draft.details| == DETAILS_SIZE && s.draft.keys != []
    {
    }

    /** The dates, which only the chain checks, and the number of attributes. */
    method HandleDates(cdata: Data) returns (reply: Reply)
      requires Valid() && model.phase.Dates? && model.pending.Nothing?
      modifies this
      ensures Sized() && reply == TakeDates(old(model), cdata).reply
      ensures reply.Open() ==> Valid() && model == TakeDates(old(model), cdata).next
    {
      hide Inv, Rows, P.BufferAfter, FromBe;
      DatesKeepsInv(model, cdata);
      var ok := ReadDates(cdata);
      if !ok {
        return Throw(SWO_INCORRECT_DATA);
      }
      if attributeListLength == 0 {
        inner := LengthOfProofs;
      } else {
        inner := AttributeTag;
      }
      Commit(TakeDates(model, cdata).next);
      reply := Ack;
    }

    method ReadDates(cdata: Data) returns (ok: bool)
      modifies this`hash, this`attributeListLength
      ensures ok <==> |cdata| >= 8
      ensures ok ==> hash == old(hash) + cdata[..8] && attributeListLength == FromBe(cdata[6..8])
    {
      hide FromBe;
      if |cdata| < 6 {
        return false;
      }
      hash := hash + cdata[..6];
      if |cdata| < 8 {
        return false;
      }
      Pow256Values();
      attributeListLength := FromBe(cdata[6..8]);
      hash := hash + cdata[6..8];
      assert cdata[..8] == cdata[..6] + cdata[6..8];
      return true;
    }

    /** The tag of an attribute and the length of its value. */
    method HandleTag(cdata: Data) returns (reply: Reply)
      requires Valid() && model.phase.Tag? && model.pending.Nothing?
      modifies this
      ensures Sized() && reply == TakeTag(old(model), cdata).reply
      ensures reply.Open() ==> Valid() && model == TakeTag(old(model), cdata).next
    {
      hide Inv, Rows, P.BufferAfter;
      if attributeListLength <= 0 {
        return Throw(ERROR_INVALID_STATE);
      }
      TagKeepsInv(model, cdata);
      var ok := ReadTag(cdata);
      if !ok {
        return Throw(SWO_INCORRECT_DATA);
      }
      inner := AttributeValue;
      Commit(TakeTag(model, cdata).next);
      reply := Ack;
    }

    method ReadTag(cdata: Data) returns (ok: bool)
      modifies this`hash, this`attributeTag, this`attributeValueLength
      ensures ok <==> |cdata| >= 2
      ensures ok ==> hash == old(hash) + cdata[..2] && attributeTag == cdata[0] && attributeValueLength == cdata[1]
    {
      attributeTag := cdata[0];
      hash := hash + cdata[..1];
      if |cdata| < 2 {
        return false;
      }
      attributeValueLength := cdata[1];
      hash := hash + cdata[1..2];
      assert cdata[..2] == cdata[..1] + cdata[1..2];
      return true;
    }

    /** The value of an attribute, reviewed before the list goes on. */
    method HandleValue(cdata: Data) returns (reply: Reply)
      requires Valid() && model.phase.Value? && model.pending.Nothing?
      modifies this, attributeValue
      ensures Sized() && reply == TakeValue(old(model), cdata).reply
      ensures reply.Open() ==>
                && Valid() && model == TakeValue(old(model), cdata).next
                && old(model).valueLength <= |cdata| && CString(attributeValue[..]) == cdata[..old(model).valueLength]
                && attributeTag == old(model).tag
    {
      hide Inv, Rows, P.BufferAfter, CString, DisplayableText;
      if |cdata| < attributeValueLength {
        return Throw(SWO_INCORRECT_DATA);
      }
      var value := cdata[..attributeValueLength];
      hash := hash + value;
      var displayable := IsDisplayableText(value);
      if !displayable {
        return Throw(ERROR_INVALID_TRANSACTION);
      }
      ShowValue(value);
      ghost var next := TakeValue(model, cdata).next;
      ValueKeepsInv(model, cdata);
      Commit(next);
      reply := Continue;
    }

    method ShowValue(value: seq<byte>)
      requires Sized() && |value| <= UINT8_MAX && DisplayableText(value)
      modifies attributeValue
      ensures CString(attributeValue[..]) == value
    {
      hide CString;
      forall i | 0 <= i < attributeValue.Length {
        attributeValue[i] := if i < |value| then value[i] else 0;
      }
      assert attributeValue[..] == value + [0] + attributeValue[|value| + 1..];
      CStringOf(value, attributeValue[|value| + 1..]);
    }

    method HandleProofLength(cdata: Data) returns (reply: Reply)
      requires Valid() && model.phase.ProofLength? && model.pending.Nothing?
      modifies this
      ensures Sized() && reply == TakeProofLength(old(model), cdata).reply
      ensures reply.Open() ==> Valid() && model == TakeProofLength(old(model), cdata).next
    {
      hide Inv, Rows, P.BufferAfter, FromBe;
      if |cdata| < 4 {
        return Throw(SWO_INCORRECT_DATA);
      }
      Pow256Values();
      proofLength := FromBe(cdata[..4]);
      hash := hash + cdata[..4];
      inner := ProofBytes;
      ghost var next := TakeProofLength(model, cdata).next;
      ProofLengthKeepsInv(model, cdata);
      Commit(next);
      reply := Ack;
    }

    /** A packet of the proofs; the last one brings up the credential. NEW_OR_EXISTING is never entered. */
    method HandleProofs(cdata: Data) returns (reply: Reply)
      requires Valid() && model.phase.Proofs? && model.pending.Nothing?
      modifies this
      ensures Sized() && reply == TakeProofs(old(model), cdata).reply
      ensures reply.Open() ==> Valid() && model == TakeProofs(old(model), cdata).next
      ensures reply.Open() ==> inner == ProofBytes
    {
      hide Inv, Rows, P.BufferAfter;
      ProofsKeepInv(model, cdata);
      ghost var next := TakeProofs(model, cdata).next;
      if proofLength > MAX_CDATA_LENGTH {
        if |cdata| < MAX_CDATA_LENGTH {
          return Throw(SWO_INCORRECT_DATA);
        }
        hash := hash + cdata[..MAX_CDATA_LENGTH];
        proofLength := proofLength - MAX_CDATA_LENGTH;
        reply := Ack;
      } else {
        if |cdata| < proofLength {
          return Throw(SWO_INCORRECT_DATA);
        }
        hash := hash + cdata[..proofLength];
        LeftoversAreImpossible(model);
        if outer != OuterCredential || credentialDeploymentCount == 0 {
          // Only a credential deployed on its own goes on to NEW_OR_EXISTING.
          assert false;
        }
        reply := Continue;
      }
      Commit(next);
    }

    // ---- The approval callbacks ----

    /** processNextVerificationKey; the branch for no keys left is never taken. */
    method ProcessNextVerificationKey()
      requires Valid() && model.pending.KeyUp?
      modifies this
      ensures Valid() && Approve(old(model)).reply.Open() && model == Approve(old(model)).next && inner == VerificationKey
    {
      hide Inv, Rows, P.BufferAfter;
      KeyIsUp(model);
      KeyApproved(model);
      if numberOfVerificationKeys == 0 {
        assert false;
      }
      inner := VerificationKey;
      ghost var next := Approve(model).next;
      Commit(next);
    }

    lemma KeyIsUp(s: State)
      requires Inv(s) && s.pending.KeyUp?
      ensures s.phase.Keys? && s.keysLeft > 0
    {
    }

    /** confirmAttribute; its throw is never reached. */
    method ConfirmAttribute()
      requires Valid() && model.pending.AttributeUp?
      modifies this
      ensures Valid() && Approve(old(model)).reply.Open() && model == Approve(old(model)).next
    {
      hide Inv, Rows, P.BufferAfter;
      AttributeIsUp(model);
      AttributeApproved(model);
      attributeListLength := attributeListLength - 1;
      if attributeListLength == 0 {
        inner := LengthOfProofs;
      } else {
        inner := AttributeTag;
      }
      ghost var next := Approve(model).next;
      Commit(next);
    }

    lemma AttributeIsUp(s: State)
      requires Inv(s) && s.pending.AttributeUp?
      ensures s.phase.Value? && s.attributesLeft > 0
    {
    }

    /** confirmAddedCredential; its throw is never reached. */
    method ConfirmAddedCredential()
      requires Valid() && model.pending.AddedUp?
      modifies this
      ensures Valid() && Approve(old(model)).reply.Open() && model == Approve(old(model)).next
    {
      hide Inv, Rows, P.BufferAfter, Providers;
      AddedIsUp(model);
      AddedApproved(model);
      credentialDeploymentCount := credentialDeploymentCount - 1;
      if credentialDeploymentCount == 0 {
        outer := OuterIdCount;
        inner := InnerZero;
      } else {
        outer := OuterIndex;
        inner := KeysLength;
      }
      AddedRows(model);
      model := Approve(model).next;
    }

    lemma AddedIsUp(s: State)
      requires Inv(s) && s.pending.AddedUp?
      ensures s.phase.Proofs? && s.credentialsLeft > 0
    {
    }

    lemma AddedRows(s: State)
      requires Sized() && Inv(s) && Rows(s) && s.pending.AddedUp?
      ensures Inv(Approve(s).next) && Rows(Approve(s).next)
    {
      hide Inv, P.BufferAfter, CString, ProvidersOf;
      AddedIsUp(s);
      AddedApproved(s);
      AddedProviders(s);
    }

    lemma AddedAreValid(s: State)
      requires Inv(s)
      ensures ValidCredentials(s.added)
    {
    }

    lemma AddedProviders(s: State)
      requires Inv(s) && s.pending.AddedUp? && Approve(s).reply.Open() && Inv(Approve(s).next) && ValidCredential(s.draft)
      ensures Providers(Approve(s).next) == Providers(s)
    {
      hide Inv, ValidCredential, ProvidersOf;
      AddedIsUp(s);
      AddedAreValid(s);
      ProvidersAppend(s.added, s.draft);
    }

    /** The other approvals only let the flow go on. */
    method GoOn()
      requires Valid() && (model.pending.IntroUp? || model.pending.IdUp?)
      modifies this
      ensures Valid() && Approve(old(model)).reply.Open() && model == Approve(old(model)).next
    {
      hide Inv, Rows, P.BufferAfter;
      ApprovalsSucceed(model);
      IntroOrId(model);
      ghost var next := Approve(model).next;
      Commit(next);
    }

    lemma IntroOrId(s: State)
      requires Inv(s) && (s.pending.IntroUp? || s.pending.IdUp?)
      ensures !(2 <= Rank(s.phase) <= 9)
    {
    }

    // ---- Dispatch ----

    /** handle_sign_credential_deployment, reached with P2 2. */
    method HandleCredential(p1: uint8, cdata: Data) returns (reply: Reply)
      requires Valid() && model.pending.Nothing? && 2 <= Rank(model.phase) <= 9
      modifies this, accountVerificationKey, signatureThreshold, identityProviderIndex, anonymityRevocationThreshold, attributeValue
      ensures Sized() && reply == TakeInner(old(model), p1, cdata).reply
      ensures reply.Open() ==> Valid() && model == TakeInner(old(model), p1, cdata).next
    {
      hide Inv, Rows, TakeKeyCount, TakeKey, TakeDetails, TakeRevoker, TakeDates, TakeTag, TakeValue, TakeProofLength, TakeProofs;
      if p1 == 0x0A && inner == KeysLength {
        reply := HandleKeyCount(cdata);
      } else if p1 == 1 {
        if inner == VerificationKey {
          reply := HandleKey(cdata);
        } else {
          reply := Throw(ERROR_INVALID_STATE);
        }
      } else if p1 == 2 && inner == SignatureThreshold {
        reply := HandleDetails(cdata);
      } else if p1 == 3 && inner == ArIdentity {
        reply := HandleRevoker(cdata);
      } else if p1 == 4 && inner == CredentialDates {
        reply := HandleDates(cdata);
      } else if p1 == 5 && inner == AttributeTag {
        reply := HandleTag(cdata);
      } else if p1 == 6 && inner == AttributeValue {
        reply := HandleValue(cdata);
      } else if p1 == 7 && inner == LengthOfProofs {
        reply := HandleProofLength(cdata);
      } else if p1 == 8 && inner == ProofBytes {
        reply := HandleProofs(cdata);
      } else {
        reply := Throw(ERROR_INVALID_STATE);
      }
    }

    /** handle_sign_update_credential */
    method Handle(p1: uint8, p2: uint8, cdata: Data, isInitialCall: bool) returns (reply: Reply)
      requires Valid() && model.pending.Nothing? && (isInitialCall ==> model == START)
      modifies this, credentialId, accountVerificationKey, signatureThreshold, identityProviderIndex,
               anonymityRevocationThreshold, attributeValue
      ensures reply == CredentialFlow.Packet(old(model), p1, p2, cdata).reply
      ensures reply.Open() ==> Valid() && model == CredentialFlow.Packet(old(model), p1, p2, cdata).next
      ensures reply.Throw? ==> Valid() && model == START
    {
      hide Inv, Rows, TakeInner, TakeInitial, TakeIndex, TakeIdCount, TakeId, TakeThreshold;
      LeftoversAreImpossible(model);
      if isInitialCall {
        outer := OuterInitial;
      }
      if p2 == 0 && outer == OuterInitial {
        reply := HandleInitial(cdata);
      } else if p2 == 1 && outer == OuterIndex && credentialDeploymentCount > 0 {
        reply := HandleIndex(cdata);
      } else if p2 == 2 && outer == OuterCredential && credentialDeploymentCount > 0 {
        reply := HandleCredential(p1, cdata);
      } else if p2 == 3 && outer == OuterIdCount {
        reply := HandleIdCount(cdata);
      } else if p2 == 4 && outer == OuterId {
        IdsAreOwed(model);
        reply := HandleId(cdata);
      } else if p2 == 5 && outer == OuterThreshold {
        reply := HandleThreshold(cdata);
      } else {
        reply := Throw(ERROR_INVALID_STATE);
      }
      if reply.Throw? {
        Clear();
      }
    }

    lemma IdsAreOwed(s: State)
      requires Inv(s) && s.phase.Ids?
      ensures s.idsLeft > 0
    {
    }

    /**
     When an added credential is up for review, the rows show its last key, both thresholds, its
     registration id and the digest of all its revokers; the provider row is right exactly if the provider has at most
     eight digits and no credential before it in the transaction had more digits.
     */
    lemma AddedCredentialIsShown(following: seq<byte>)
      requires Valid() && model.pending.AddedUp? && following != [] && following[0] != 0
      ensures var c := model.draft;
        && ValidCredential(c) && ValidCredentials(model.added)
        && ShowsKey(c.keys[|c.keys| - 1])
        && CString(signatureThreshold[..]) == Dec(c.details[0])
        && CString(anonymityRevocationThreshold[..]) == Dec(c.details[53]) + OUT_OF + Dec(|c.revokers|)
        && arListHash == Flatten(c.revokers) && regIdCred == c.details[1..49]
        && (CString(identityProviderIndex[..] + following) == Dec(Provider(c.details)) <==> ProviderFits(model.added, c))
    {
      hide Inv, CString, P.BufferAfter, FromBe, Dec, ValidCredential, ValidCredentials, Flatten;
      AddedIsUp(model);
      AddedAreValid(model);
      AddedApproved(model);
      DraftHasDetails(model);
      var before, provider := ProvidersOf(model.added), Provider(model.draft.details);
      assert Providers(model) == before + [provider];
      ShortOfValid(model.draft);
      P.RowIsExactIff(before, provider, following);
      assert forall i :: 0 <= i < |model.added| ==> before[i] == Provider(model.added[i].details);
    }

    lemma ShortOfValid(c: Credential)
      requires ValidCredential(c)
      ensures |c.details| == DETAILS_SIZE && c.keys != [] && |Dec(Provider(c.details))| <= P.PROVIDER_SIZE
    {
      ShortProvider(Provider(c.details));
    }
  }
}
