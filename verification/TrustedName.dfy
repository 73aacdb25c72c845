/**
 The trusted name that Ledger's backend may certify for an account:
 src/handler/set_trusted_name.c and src/handler/get_challenge.c.
 */
module TrustedName {
  import opened Bytes
  import opened Options
  import opened Status

  const STRUCTURE_TYPE_TRUSTED_NAME := 0x03
  const SPEC_VERSION := 0x03
  const TYPE_CONTEXT_ADDRESS := 0x07
  const SOURCE_DYNAMIC_RESOLVER := 0x06
  const SIGNER_KEY_ID_PROD := 0x0007
  const CHAIN_ID_MAINNET := 0
  const CHAIN_ID_TESTNET := 1
  const KEY_LENGTH := 32
  const TRUSTED_NAME_MAX_LEN := 64

  datatype Tag =
    | StructureType | Version | NameType | NameSource | Name | ChainId | Address | NftId | SourceContract | Challenge
    | NotValidAfter | SignerKeyId | SignerAlgorithm | DerSignature

  /** An application version, or the cutoff of a descriptor. */
  datatype Semver = Semver(major: uint8, minor: uint8, patch: uint16)
  {
    /** Versions in order, as one number. */
    function Ordinal(): nat {
      (major * 0x100 + minor) * 0x1_0000 + patch
    }
  }

  /** trustedNameTlvExtracted_t: what the TLV parser read, and which tags it met. */
  datatype Descriptor = Descriptor(
    received: set<Tag>, structureType: uint8, version: uint8, nameType: uint8, nameSource: uint8, name: seq<byte>,
    address: seq<byte>, chainId: uint64, challenge: uint64, notValidAfter: Semver, signerKeyId: uint16)

  const REQUIRED: set<Tag> :=
    {Version, NameType, NameSource, Name, ChainId, Address, Challenge, SignerKeyId, SignerAlgorithm, DerSignature}

  /** The version comparison of the source is the order of versions. */
  lemma AfterIsTheOrder(app: Semver, cutoff: Semver)
    ensures AppVersionIsAfter(app, cutoff) <==> app.Ordinal() > cutoff.Ordinal()
  {
  }

  /** app_version_is_after */
  predicate AppVersionIsAfter(app: Semver, cutoff: Semver) {
    if app.major != cutoff.major then app.major > cutoff.major
    else if app.minor != cutoff.minor then app.minor > cutoff.minor
    else app.patch > cutoff.patch
  }

  /** The descriptor was issued for exactly this use: naming a Concordium account, on a network of this app. */
  predicate Authorized(app: Semver, d: Descriptor) {
    && StructureType in d.received && d.structureType == STRUCTURE_TYPE_TRUSTED_NAME
    && REQUIRED <= d.received
    && d.signerKeyId == SIGNER_KEY_ID_PROD && |d.address| == KEY_LENGTH
    && d.version == SPEC_VERSION && d.nameType == TYPE_CONTEXT_ADDRESS && d.nameSource == SOURCE_DYNAMIC_RESOLVER
    && d.chainId in {CHAIN_ID_MAINNET, CHAIN_ID_TESTNET}
    && NftId !in d.received && SourceContract !in d.received
    && (NotValidAfter in d.received ==> app.Ordinal() <= d.notValidAfter.Ordinal())
  }

  /** verify_fields: the checks of the source, one by one. */
  method VerifyFields(app: Semver, d: Descriptor) returns (ok: bool)
    ensures ok <==> Authorized(app, d)
  {
    AfterIsTheOrder(app, d.notValidAfter);
    if StructureType !in d.received {
      return false;
    }
    if d.structureType != STRUCTURE_TYPE_TRUSTED_NAME {
      return false;
    }
    if !(REQUIRED <= d.received) {
      return false;
    }
    if d.signerKeyId != SIGNER_KEY_ID_PROD {
      return false;
    }
    if |d.address| != KEY_LENGTH {
      return false;
    }
    if d.version != SPEC_VERSION {
      return false;
    }
    if d.nameType != TYPE_CONTEXT_ADDRESS {
      return false;
    }
    if d.nameSource != SOURCE_DYNAMIC_RESOLVER {
      return false;
    }
    if d.chainId != CHAIN_ID_MAINNET && d.chainId != CHAIN_ID_TESTNET {
      return false;
    }
    if NftId in d.received || SourceContract in d.received {
      return false;
    }
    if NotValidAfter in d.received && AppVersionIsAfter(app, d.notValidAfter) {
      return false;
    }
    return true;
  }

  // ---- The globals, as a value ----

  /** The stored challenge, zero for none, and the binding a descriptor left behind. */
  datatype Trust = Trust(challenge: uint64, valid: bool, name: seq<byte>, key: seq<byte>, chainId: uint64)

  const NO_TRUST := Trust(0, false, [], [], 0)

  /** What the SDK found in a payload: a descriptor or none, and whether Ledger's signature over it holds. */
  datatype Payload = Payload(parsed: Option<Descriptor>, signed: bool)

  /** Whether a descriptor is to be believed now. */
  predicate Believed(app: Semver, t: Trust, payload: Payload) {
    && payload.parsed.Some? && Authorized(app, payload.parsed.value)
    && t.challenge != 0 && payload.parsed.value.challenge == t.challenge && payload.signed
  }

  /** handle_get_challenge */
  function GetChallenge(t: Trust, nonce: uint64): Trust {
    t.(challenge := nonce)
  }

  /** clear_trusted_name_binding: the challenge is not part of the binding. */
  function ClearBinding(t: Trust): Trust {
    Trust(t.challenge, false, [], [], 0)
  }

  /** handle_set_trusted_name; success is answered with 0x9000, any failure with ERROR_INVALID_PARAM. */
  function SetTrustedName(t: Trust, app: Semver, p1: uint8, p2: uint8, hasData: bool, payload: Payload): (r: (Trust, bool)) {
    if p1 != 0 || p2 != 0 || !hasData then (t.(challenge := 0), false)
    else if !Believed(app, t, payload) then (t.(challenge := 0, valid := false), false)
    else
      var d := payload.parsed.value;
      (Trust(0, true, d.name, d.address, d.chainId), true)
  }

  /**
   An attempt is accepted exactly if it is well formed and carries a signed descriptor, authorised
   for this use, that answers the stored challenge; in any case the challenge is spent, so that the
   same attempt cannot be accepted again.
   */
  lemma SetSpendsTheChallenge(t: Trust, app: Semver, p1: uint8, p2: uint8, hasData: bool, payload: Payload,
                              q1: uint8, q2: uint8, again: bool, other: Payload)
    ensures var r := SetTrustedName(t, app, p1, p2, hasData, payload);
      && (r.1 <==> p1 == 0 && p2 == 0 && hasData && payload.signed && payload.parsed.Some?
                   && Authorized(app, payload.parsed.value) && payload.parsed.value.challenge == t.challenge != 0)
      && r.0.challenge == 0
      && !SetTrustedName(r.0, app, q1, q2, again, other).1
  {
  }

  /**
   A rejected attempt revokes the binding an earlier one left, except when it is rejected for its
   parameters or for carrying no data: then an earlier binding stays in force.
   */
  lemma RejectionKeepsBindingIff(t: Trust, app: Semver, p1: uint8, p2: uint8, hasData: bool, payload: Payload)
    requires !SetTrustedName(t, app, p1, p2, hasData, payload).1
    ensures SetTrustedName(t, app, p1, p2, hasData, payload).0.valid
       <==> t.valid && (p1 != 0 || p2 != 0 || !hasData)
  {
  }

  /** The globals of set_trusted_name.c. */
  class TrustedNames {
    const app: Semver
    var trustedName: seq<byte>
    var trustedAddress: seq<byte>
    var trustedChainId: uint64
    var trustedNameValid: bool
    var storedChallenge: uint64

    ghost function Value(): Trust
      reads this
    {
      Trust(storedChallenge, trustedNameValid, trustedName, trustedAddress, trustedChainId)
    }

    constructor (app: Semver)
      ensures Value() == NO_TRUST && this.app == app
    {
      this.app := app;
      trustedName, trustedAddress, trustedChainId, trustedNameValid, storedChallenge := [], [], 0, false, 0;
    }

    /** handle_get_challenge */
    method HandleGetChallenge(nonce: uint64)
      modifies this`storedChallenge
      ensures Value() == GetChallenge(old(Value()), nonce)
    {
      storedChallenge := nonce;
    }

    /** clear_trusted_name_binding */
    method ClearTrustedNameBinding()
      modifies this
      ensures Value() == ClearBinding(old(Value()))
    {
      trustedName, trustedAddress := [], [];
      trustedChainId, trustedNameValid := 0, false;
    }

    /** verify_challenge */
    method VerifyChallenge(d: Descriptor) returns (ok: bool)
      ensures ok <==> storedChallenge != 0 && d.challenge == storedChallenge
    {
      var stored := storedChallenge;
      if stored == 0 {
        return false;
      }
      return d.challenge == stored;
    }

    /** trusted_name_send_set_error */
    method SendSetError() returns (sw: int)
      modifies this`storedChallenge
      ensures Value() == old(Value()).(challenge := 0) && sw == ERROR_INVALID_PARAM
    {
      storedChallenge := 0;
      return ERROR_INVALID_PARAM;
    }

    /** handle_set_trusted_name */
    method HandleSetTrustedName(p1: uint8, p2: uint8, hasData: bool, payload: Payload) returns (sw: int)
      modifies this
      ensures var r := SetTrustedName(old(Value()), app, p1, p2, hasData, payload);
        Value() == r.0 && sw == if r.1 then SWO_SUCCESS else ERROR_INVALID_PARAM
      ensures sw == 0x9000 <==>
              && p1 == 0 && p2 == 0 && hasData && payload.signed && payload.parsed.Some?
              && Authorized(app, payload.parsed.value) && payload.parsed.value.challenge == old(storedChallenge) != 0
      ensures sw == 0x9000 ==>
                && trustedNameValid && trustedName == payload.parsed.value.name
                && trustedAddress == payload.parsed.value.address && trustedChainId == payload.parsed.value.chainId
    {
      if p1 != 0 || p2 != 0 {
        sw := SendSetError();
        return;
      }
      if !hasData {
        sw := SendSetError();
        return;
      }
      trustedNameValid := false;
      if payload.parsed.None? {
        sw := SendSetError();
        return;
      }
      var d := payload.parsed.value;
      var fieldsOk := VerifyFields(app, d);
      if !fieldsOk {
        sw := SendSetError();
        return;
      }
      var challengeOk := VerifyChallenge(d);
      if !challengeOk {
        sw := SendSetError();
        return;
      }
      if !payload.signed {
        sw := SendSetError();
        return;
      }
      trustedName, trustedAddress, trustedChainId := d.name, d.address, d.chainId;
      trustedNameValid := true;
      storedChallenge := 0;
      return SWO_SUCCESS;
    }
  }
}
