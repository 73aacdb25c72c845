/**
 Reviewing an account address: src/handler/verify_address.c. The address is derived on the device,
 or certified by a trusted name that is bound to the key and network of the reviewed path.
 */
module VerifyAddress {
  import opened Bytes
  import opened Decimal
  import opened DerivationPath
  import opened NumberHelpers
  import opened Options
  import opened Status
  import opened TrustedName

  const ERROR_TRUSTED_NAME_MISMATCH := 0x6B0C
  const LEGACY_PRF_KEY := 1
  const NEW_PRF_KEY := 3
  const SIGNING_PATH_LEN := 6

  /** Key derivation, which is not modelled: a public key, and the address of a credential counter. */
  datatype Derivation = Derivation(publicKey: seq<uint32> -> Option<seq<byte>>, address: (seq<uint32>, uint32) -> Option<seq<byte>>)

  // ---- The path under review ----

  /** The nodes before hardening, the format they came in, and the credential counter. */
  datatype KeyPath = KeyPath(nodes: seq<uint32>, variant: Variant, counter: uint32) | PathRefused(sw: int) | PathThrows(sw: int)

  function Word(cdata: seq<byte>, i: nat): (n: uint32)
    requires i + 4 <= |cdata|
    ensures n == FromBe(cdata[i..i + 4])
  {
    Pow256Values();
    FromBe(cdata[i..i + 4])
  }

  /** parse_derivation_path_new */
  function ParseNew(cdata: seq<byte>, mainnet: bool): KeyPath {
    if |cdata| < 12 then PathThrows(SWO_INCORRECT_DATA)
    else if Word(cdata, 0) >= HARDENED_BIT || Word(cdata, 4) >= HARDENED_BIT then PathThrows(ERROR_INVALID_PATH)
    else if |cdata| != 12 then PathThrows(SWO_WRONG_DATA_LENGTH)
    else KeyPath([NEW_PURPOSE, if mainnet then MAINNET_COIN_TYPE else TESTNET_COIN_TYPE, Word(cdata, 0), Word(cdata, 4), NEW_PRF_KEY],
                 New, Word(cdata, 8))
  }

  /** parse_derivation_path_legacy */
  function ParseLegacy(cdata: seq<byte>): KeyPath {
    if |cdata| < 8 then PathThrows(SWO_INCORRECT_DATA)
    else if Word(cdata, 0) >= HARDENED_BIT then PathThrows(ERROR_INVALID_PATH)
    else if |cdata| != 8 then PathThrows(SWO_WRONG_DATA_LENGTH)
    else KeyPath([LEGACY_PURPOSE, 0, 0, 0, Word(cdata, 0), LEGACY_PRF_KEY], Legacy, Word(cdata, 4))
  }

  /** parse_derivation_path_full; a path without nodes is refused afterwards. */
  function ParseFull(cdata: seq<byte>): KeyPath {
    if !HoldsPath(cdata) then PathThrows(ERROR_INVALID_PATH)
    else if |cdata| != 1 + 4 * cdata[0] then PathThrows(SWO_WRONG_DATA_LENGTH)
    else if cdata[0] == 0 then PathRefused(ERROR_INVALID_PATH)
    else KeyPath(WireNodes(cdata), Full, 0)
  }

  /** parse_key_path */
  function ParseKeyPath(p1: uint8, p2: uint8, cdata: seq<byte>): KeyPath {
    if p1 == 0 && p2 == 0 then ParseLegacy(cdata)
    else if p1 == 1 && p2 <= 1 then ParseNew(cdata, p2 == 0)
    else if p1 == 2 && p2 == 0 then ParseFull(cdata)
    else PathRefused(SWO_WRONG_P1_P2)
  }

  // ---- The rows ----

  /** The path row: the compact formats show their numbers, a full path shows every node. */
  function PathRow(k: KeyPath): seq<byte>
    requires k.KeyPath? && (k.variant == New || k.variant == Legacy ==> |k.nodes| >= 5)
  {
    match k.variant
    case New => Dec(k.nodes[2]) + [SLASH] + Dec(k.nodes[3]) + [SLASH] + Dec(k.counter)
    case Legacy => Dec(k.nodes[4]) + [SLASH] + Dec(k.counter)
    case Full => PathText(k.nodes)
    case Invalid => []
  }

  /** What set_path_display_label and path_display_network show. */
  datatype Labels = Labels(fullPath: bool, network: Network)

  function LabelsOf(k: KeyPath): Labels
    requires k.KeyPath?
  {
    Labels(k.variant == Full, NetworkOf(k.nodes))
  }

  /** A big-endian word of the data. */
  function At(cdata: seq<byte>, i: nat): nat {
    if i + 4 <= |cdata| then FromBe(cdata[i..i + 4]) else 0
  }

  /**
   What a review is of, told from the command: the network, the path whose keys are derived, the
   counter, and the row that shows them.
   */
  lemma ReviewedPathIs(p1: uint8, p2: uint8, cdata: seq<byte>)
    ensures ParseKeyPath(p1, p2, cdata).KeyPath? <==>
            || (p1 == 0 && p2 == 0 && |cdata| == 8 && At(cdata, 0) < 0x8000_0000)
            || (p1 == 1 && p2 <= 1 && |cdata| == 12 && At(cdata, 0) < 0x8000_0000 && At(cdata, 4) < 0x8000_0000)
            || (p1 == 2 && p2 == 0 && |cdata| >= 5 && 1 <= cdata[0] <= 8 && |cdata| == 1 + 4 * cdata[0])
    ensures var k := ParseKeyPath(p1, p2, cdata);
      k.KeyPath? ==>
        if p1 == 0 then
          && k.nodes == [1105, 0, 0, 0, At(cdata, 0), 1] && k.counter == At(cdata, 4)
          && LabelsOf(k) == Labels(false, LegacyNetwork)
          && PathRow(k) == Dec(At(cdata, 0)) + ['/' as int] + Dec(At(cdata, 4))
        else if p1 == 1 then
          && k.nodes == [44, if p2 == 0 then 919 else 1, At(cdata, 0), At(cdata, 4), 3] && k.counter == At(cdata, 8)
          && LabelsOf(k) == Labels(false, if p2 == 0 then Mainnet else Testnet)
          && PathRow(k) == Dec(At(cdata, 0)) + ['/' as int] + Dec(At(cdata, 4)) + ['/' as int] + Dec(At(cdata, 8))
        else
          && |k.nodes| == cdata[0] && (forall i :: 0 <= i < |k.nodes| ==> k.nodes[i] == At(cdata, 1 + 4 * i))
          && k.counter == 0 && LabelsOf(k).fullPath && PathRow(k) == PathText(k.nodes)
          && (LabelsOf(k).network == Mainnet <==>
                |k.nodes| >= 2 && k.nodes[0] % 0x8000_0000 == 44 && k.nodes[1] % 0x8000_0000 == 919)
          && (LabelsOf(k).network == Testnet <==>
                |k.nodes| >= 2 && k.nodes[0] % 0x8000_0000 == 44 && k.nodes[1] % 0x8000_0000 == 1)
          && (LabelsOf(k).network == LegacyNetwork <==> k.nodes[0] % 0x8000_0000 == 1105)
  {
    hide FromBe, Dec, PathText;
  }

  lemma SlashSplits(x: seq<byte>, m: nat, y: seq<byte>, n: nat)
    requires x + [SLASH] + Dec(m) == y + [SLASH] + Dec(n)
    ensures x == y && m == n
  {
    var u, v := x + [SLASH], y + [SLASH];
    assert u + Dec(m) + [QUOTE] == v + Dec(n) + [QUOTE];
    LastNodeSplits(u, m, v, n);
    assert x == u[..|u| - 1] && y == v[..|v| - 1];
  }

  lemma MaskedAreHardened(a: seq<uint32>, b: seq<uint32>)
    requires MaskAll(a) == MaskAll(b)
    ensures HardenAll(a) == HardenAll(b)
  {
    assert |a| == |MaskAll(a)| == |MaskAll(b)| == |b|;
    forall i | 0 <= i < |a| ensures HardenAll(a)[i] == HardenAll(b)[i] {
      assert MaskAll(a)[i] == MaskAll(b)[i];
      SameHardened(a[i], b[i]);
    }
  }

  lemma SameHardened(m: uint32, n: uint32)
    requires Mask(m) == Mask(n)
    ensures Harden(m) == Harden(n)
  {
    HardenIsMask(m);
    HardenIsMask(n);
  }

  lemma HardenIsMask(m: uint32)
    ensures Harden(m) == Mask(m) + HARDENED_BIT
  {
    if m >= HARDENED_BIT {
      assert m % HARDENED_BIT == m - HARDENED_BIT;
    }
  }

  /** The labels and the path row pin down the path that keys are derived from and the counter. */
  lemma RowsDeterminePath(p1: uint8, p2: uint8, cdata: seq<byte>, q1: uint8, q2: uint8, other: seq<byte>)
    requires var k, l := ParseKeyPath(p1, p2, cdata), ParseKeyPath(q1, q2, other);
      k.KeyPath? && l.KeyPath? && LabelsOf(k) == LabelsOf(l) && PathRow(k) == PathRow(l)
    ensures var k, l := ParseKeyPath(p1, p2, cdata), ParseKeyPath(q1, q2, other);
      HardenAll(k.nodes) == HardenAll(l.nodes) && k.counter == l.counter && k.variant == l.variant
  {
    hide FromBe, PathText, Dec;
    var k, l := ParseKeyPath(p1, p2, cdata), ParseKeyPath(q1, q2, other);
    match k.variant
    case Full =>
      PathTextInjective(k.nodes, l.nodes);
      MaskedAreHardened(k.nodes, l.nodes);
    case Legacy =>
      SlashSplits(Dec(k.nodes[4]), k.counter, Dec(l.nodes[4]), l.counter);
      DecInjective(k.nodes[4], l.nodes[4]);
    case New =>
      SlashSplits(Dec(k.nodes[2]) + [SLASH] + Dec(k.nodes[3]), k.counter,
                  Dec(l.nodes[2]) + [SLASH] + Dec(l.nodes[3]), l.counter);
      SlashSplits(Dec(k.nodes[2]), k.nodes[3], Dec(l.nodes[2]), l.nodes[3]);
      DecInjective(k.nodes[2], l.nodes[2]);
    case Invalid =>
  }

  // ---- Binding ----

  /** full_path_names_one_account, on hardened nodes: m/44'/coin'/idp'/identity'/0'/counter'. */
  predicate NamesOneAccount(nodes: seq<uint32>) {
    |nodes| == SIGNING_PATH_LEN && Mask(nodes[0]) == NEW_PURPOSE && Mask(nodes[4]) == 0
  }

  /** The chain a network is bound to, if it has one. */
  function ChainOf(network: Network): Option<uint64> {
    match network
    case Mainnet => Some(CHAIN_ID_MAINNET)
    case Testnet => Some(CHAIN_ID_TESTNET)
    case _ => None
  }

  /** pki_bind_descriptor: `derived` is the address the name has to equal, if one was derived. */
  predicate Binds(t: Trust, key: seq<byte>, network: Network, derived: Option<seq<byte>>) {
    && ChainOf(network) == Some(t.chainId)
    && |t.key| == KEY_LENGTH && key == t.key
    && (derived.Some? ==> t.name == derived.value)
  }

  datatype Outcome = Review(address: seq<byte>, key: KeyPath) | Refused(sw: int) | Throws(sw: int)

  /** What the command leaves of the binding, whether it tried the binding against a path, and its outcome. */
  datatype Verified = Verified(trust: Trust, tried: bool, outcome: Outcome)

  /** handle_verify_address */
  function Verify(t: Trust, d: Derivation, p1: uint8, p2: uint8, cdata: seq<byte>): Verified {
    match ParseKeyPath(p1, p2, cdata)
    case PathRefused(sw) => Verified(t, false, Refused(sw))
    case PathThrows(sw) => Verified(t, false, Throws(sw))
    case KeyPath(nodes, variant, counter) =>
      var hardened, names := HardenAll(nodes), t.valid && variant == Full;
      if names && !NamesOneAccount(hardened) then Verified(ClearBinding(t), true, Refused(ERROR_TRUSTED_NAME_MISMATCH))
      else
        var derived := if names then None else d.address(hardened, counter);
        if !names && derived.None? then Verified(t, false, Throws(ERROR_INVALID_STATE))
        else if !t.valid then Verified(t, false, Review(derived.value, KeyPath(nodes, variant, counter)))
        else
          match d.publicKey(hardened)
          case None => Verified(t, false, Throws(ERROR_INVALID_STATE))
          case Some(key) =>
            if Binds(t, key, NetworkOf(nodes), derived) then
              Verified(ClearBinding(t), true, Review(if names then t.name else derived.value, KeyPath(nodes, variant, counter)))
            else Verified(ClearBinding(t), true, Refused(ERROR_TRUSTED_NAME_MISMATCH))
  }

  /** The path is one that signs for an account, and the descriptor names its key and its network. */
  predicate CertifiedFor(t: Trust, d: Derivation, k: KeyPath, address: seq<byte>)
    requires k.KeyPath?
  {
    && k.variant == Full && |k.nodes| == 6 && k.nodes[0] % 0x8000_0000 == 44 && k.nodes[4] % 0x8000_0000 == 0
    && k.nodes[1] % 0x8000_0000 == (if t.chainId == 0 then 919 else 1) && t.chainId <= 1
    && d.publicKey(HardenAll(k.nodes)) == Some(t.key)
    && address == t.name
  }

  /**
   An address under review is derived from the path and counter shown with it, or is certified for
   a signing path; with a binding in force it is never shown unless the binding holds.
   */
  lemma ShownAddressIsGenuine(t: Trust, d: Derivation, p1: uint8, p2: uint8, cdata: seq<byte>)
    requires Verify(t, d, p1, p2, cdata).outcome.Review?
    ensures var r := Verify(t, d, p1, p2, cdata);
      var k := r.outcome.key;
      && k == ParseKeyPath(p1, p2, cdata) && k.KeyPath?
      && (d.address(HardenAll(k.nodes), k.counter) == Some(r.outcome.address)
          || (t.valid && CertifiedFor(t, d, k, r.outcome.address)))
      && (t.valid ==>
            && r.tried && r.outcome.address == t.name && ChainOf(NetworkOf(k.nodes)) == Some(t.chainId)
            && d.publicKey(HardenAll(k.nodes)) == Some(t.key))
  {
    var k := ParseKeyPath(p1, p2, cdata);
    if t.valid && k.variant == Full {
      NamesIgnoresHardening(k.nodes);
    }
  }

  lemma NamesIgnoresHardening(nodes: seq<uint32>)
    ensures NamesOneAccount(HardenAll(nodes)) <==> NamesOneAccount(nodes)
  {
    if |nodes| == SIGNING_PATH_LEN {
      assert Mask(HardenAll(nodes)[0]) == Mask(nodes[0]) && Mask(HardenAll(nodes)[4]) == Mask(nodes[4]);
    }
  }

  /** A binding is tried once: trying clears it, and nothing else here changes it. */
  lemma TryingClears(t: Trust, d: Derivation, p1: uint8, p2: uint8, cdata: seq<byte>)
    ensures var r := Verify(t, d, p1, p2, cdata);
      && (r.tried ==> t.valid && r.trust == ClearBinding(t))
      && (!r.tried ==> r.trust == t)
      && (t.valid && r.outcome.Review? ==> r.tried)
  {
  }

  /** verifyAddressContext_t, and the methods over it and the trusted globals. */
  class AddressReview {
    var address: seq<byte>
    const display: array<byte>
    var network: Network
    const path: DerivationPath
    const trusted: TrustedNames
    const derivation: Derivation

    ghost predicate Valid()
      reads this, path
    {
      display.Length == DISPLAY_SIZE && path.Valid()
    }

    constructor (trusted: TrustedNames, derivation: Derivation)
      ensures Valid() && this.trusted == trusted && this.derivation == derivation
    {
      this.trusted, this.derivation := trusted, derivation;
      address, network := [], UnknownNetwork;
      display := new byte[DISPLAY_SIZE](_ => 0);
      path := new DerivationPath();
    }

    /** pki_bind_descriptor */
    method PkiBindDescriptor(key: seq<byte>, network: Network, bindDerivedAddress: bool) returns (sw: int)
      modifies this`address
      ensures sw == if Binds(trusted.Value(), key, network, if bindDerivedAddress then Some(old(address)) else None)
                    then SWO_SUCCESS else ERROR_TRUSTED_NAME_MISMATCH
      ensures sw == SWO_SUCCESS ==> address == trusted.trustedName
    {
      var expectedChainId;
      match network {
        case Mainnet => expectedChainId := CHAIN_ID_MAINNET;
        case Testnet => expectedChainId := CHAIN_ID_TESTNET;
        case _ => return ERROR_TRUSTED_NAME_MISMATCH;
      }
      if trusted.trustedChainId != expectedChainId {
        return ERROR_TRUSTED_NAME_MISMATCH;
      }
      if |trusted.trustedAddress| != KEY_LENGTH {
        return ERROR_TRUSTED_NAME_MISMATCH;
      }
      if key != trusted.trustedAddress {
        return ERROR_TRUSTED_NAME_MISMATCH;
      }
      if bindDerivedAddress {
        if trusted.trustedName != address {
          return ERROR_TRUSTED_NAME_MISMATCH;
        }
        return SWO_SUCCESS;
      }
      address := trusted.trustedName;
      return SWO_SUCCESS;
    }

    /** The compact formats write out a path of their own. */
    method SetPath(nodes: seq<uint32>, variant: Variant)
      requires path.Valid() && |nodes| <= NODES_MAX
      modifies path, path.nodes
      ensures path.Valid() && path.Value() == Path(nodes, variant)
    {
      path.len := |nodes|;
      forall i | 0 <= i < |nodes| {
        path.nodes[i] := nodes[i];
      }
      path.variant := variant;
    }

    /** parse_key_path and the parsers behind it; `thrown` tells a throw from a refusal. */
    method ReadKeyPath(p1: uint8, p2: uint8, cdata: seq<byte>) returns (sw: int, thrown: bool, counter: uint32)
      requires path.Valid()
      modifies path, path.nodes
      ensures path.Valid()
      ensures match ParseKeyPath(p1, p2, cdata)
              case KeyPath(nodes, variant, c) => sw == SWO_SUCCESS && path.Value() == Path(nodes, variant) && counter == c
              case PathRefused(e) => sw == e != SWO_SUCCESS && !thrown
              case PathThrows(e) => sw == e != SWO_SUCCESS && thrown
    {
      hide FromBe;
      sw, thrown, counter := SWO_SUCCESS, false, 0;
      match p1 {
        case 0 =>
          if p2 != 0 {
            return SWO_WRONG_P1_P2, false, 0;
          }
          sw, counter := ReadLegacy(cdata);
          thrown := sw != SWO_SUCCESS;
        case 1 =>
          if p2 > 1 {
            return SWO_WRONG_P1_P2, false, 0;
          }
          sw, counter := ReadNew(cdata, p2 == 0);
          thrown := sw != SWO_SUCCESS;
        case 2 =>
          if p2 != 0 {
            return SWO_WRONG_P1_P2, false, 0;
          }
          var o, consumed := path.ParseFromBuffer(cdata);
          if o.Thrown? {
            return o.sw, true, 0;
          }
          if |cdata| != consumed {
            return SWO_WRONG_DATA_LENGTH, true, 0;
          }
          if path.len == 0 {
            return ERROR_INVALID_PATH, false, 0;
          }
        case _ =>
          return SWO_WRONG_P1_P2, false, 0;
      }
    }

    /** parse_derivation_path_legacy */
    method ReadLegacy(cdata: seq<byte>) returns (sw: int, counter: uint32)
      requires path.Valid()
      modifies path, path.nodes
      ensures path.Valid()
      ensures match ParseLegacy(cdata)
              case KeyPath(nodes, variant, c) => sw == SWO_SUCCESS && path.Value() == Path(nodes, variant) && counter == c
              case PathRefused(_) => false
              case PathThrows(e) => sw == e != SWO_SUCCESS
    {
      hide FromBe;
      if |cdata| < 8 {
        return SWO_INCORRECT_DATA, 0;
      }
      var identity := Word(cdata, 0);
      if identity >= HARDENED_BIT {
        return ERROR_INVALID_PATH, 0;
      }
      counter := Word(cdata, 4);
      if |cdata| != 8 {
        return SWO_WRONG_DATA_LENGTH, counter;
      }
      SetPath([LEGACY_PURPOSE, 0, 0, 0, identity, LEGACY_PRF_KEY], Legacy);
      sw := SWO_SUCCESS;
    }

    /** parse_derivation_path_new */
    method ReadNew(cdata: seq<byte>, mainnet: bool) returns (sw: int, counter: uint32)
      requires path.Valid()
      modifies path, path.nodes
      ensures path.Valid()
      ensures match ParseNew(cdata, mainnet)
              case KeyPath(nodes, variant, c) => sw == SWO_SUCCESS && path.Value() == Path(nodes, variant) && counter == c
              case PathRefused(_) => false
              case PathThrows(e) => sw == e != SWO_SUCCESS
    {
      hide FromBe;
      if |cdata| < 12 {
        return SWO_INCORRECT_DATA, 0;
      }
      var identityProvider := Word(cdata, 0);
      if identityProvider >= HARDENED_BIT {
        return ERROR_INVALID_PATH, 0;
      }
      var identity := Word(cdata, 4);
      if identity >= HARDENED_BIT {
        return ERROR_INVALID_PATH, 0;
      }
      counter := Word(cdata, 8);
      if |cdata| != 12 {
        return SWO_WRONG_DATA_LENGTH, counter;
      }
      SetPath([NEW_PURPOSE, if mainnet then MAINNET_COIN_TYPE else TESTNET_COIN_TYPE, identityProvider, identity, NEW_PRF_KEY], New);
      sw := SWO_SUCCESS;
    }

    /** One number of a compact row and the slash behind it; a row of three numbers always fits. */
    method PutNumber(offset: nat, n: uint32) returns (end: nat)
      requires display.Length == DISPLAY_SIZE && offset + 11 < DISPLAY_SIZE
      modifies display
      ensures end <= offset + 11 && display[..end] == old(display[..offset]) + Dec(n) + [SLASH]
    {
      hide Dec;
      Pow10Values();
      DecLength(n, 10);
      var o;
      end, o := NumberToText(display, offset, n);
      display[end] := SLASH;
      end := end + 1;
    }

    /** path_display_new, path_display_legacy and path_display_full. */
    method ShowPath(ghost k: KeyPath, counter: uint32)
      requires Valid() && k.KeyPath? && path.Value() == Path(k.nodes, k.variant) && counter == k.counter
      requires k.variant != Invalid && (k.variant != Full ==> |k.nodes| >= 5)
      modifies display
      ensures CString(display[..]) == PathRow(k)
    {
      hide Dec, PathText, CString;
      Pow10Values();
      DecLength(counter, 10);
      match path.variant {
        case New =>
          var offset := PutNumber(0, path.nodes[2]);
          offset := PutNumber(offset, path.nodes[3]);
          ghost var text := Dec(k.nodes[2]) + [SLASH] + Dec(k.nodes[3]) + [SLASH];
          assert display[..offset] == text;
          assert 0 !in text by { NoZero(Dec(k.nodes[2])); NoZero(Dec(k.nodes[3])); }
          var _ := BinToDec(display, offset, counter);
        case Legacy =>
          var offset := PutNumber(0, path.nodes[4]);
          assert display[..offset] == Dec(k.nodes[4]) + [SLASH];
          NoZero(Dec(k.nodes[4]));
          var _ := BinToDec(display, offset, counter);
        case Full => path.DisplayFull(display);
        case Invalid =>
      }
    }

    lemma NoZero(digits: seq<byte>)
      requires forall i :: 0 <= i < |digits| ==> IsDigit(digits[i])
      ensures 0 !in digits
    {
    }

    /** handle_verify_address */
    method HandleVerifyAddress(p1: uint8, p2: uint8, cdata: seq<byte>) returns (ghost tried: bool, outcome: Answer)
      requires Valid()
      modifies this, path, path.nodes, display, trusted
      ensures Valid()
      ensures var r := Verify(old(trusted.Value()), derivation, p1, p2, cdata);
        && trusted.Value() == r.trust && tried == r.tried
        && match r.outcome
           case Review(shown, key) =>
             outcome == ShowReview && address == shown && network == NetworkOf(key.nodes) && CString(display[..]) == PathRow(key)
           case Refused(sw) => outcome == SendRejection(sw)
           case Throws(sw) => outcome == Threw(sw)
    {
      hide FromBe, PathRow, CString, NetworkOf;
      ghost var k := ParseKeyPath(p1, p2, cdata);
      tried := false;
      path.Init();
      address := [];
      var sw, thrown, counter := ReadKeyPath(p1, p2, cdata);
      if sw != SWO_SUCCESS {
        return tried, if thrown then Threw(sw) else SendRejection(sw);
      }
      ShapeOfKeyPath(p1, p2, cdata);
      network := NetworkOf(path.nodes[..path.len]);
      ShowPath(k, counter);
      path.HardenNodes();
      var hardened := path.nodes[..path.len];
      var names := trusted.trustedNameValid && path.variant == Full;
      if names && !(path.len == SIGNING_PATH_LEN && Mask(path.nodes[0]) == NEW_PURPOSE && Mask(path.nodes[4]) == 0) {
        tried := true;
        trusted.ClearTrustedNameBinding();
        address := [];
        return tried, SendRejection(ERROR_TRUSTED_NAME_MISMATCH);
      }
      if !names {
        var derived := derivation.address(hardened, counter);
        if derived.None? {
          return tried, Threw(ERROR_INVALID_STATE);
        }
        address := derived.value;
      }
      if trusted.trustedNameValid {
        var key := derivation.publicKey(hardened);
        if key.None? {
          return tried, Threw(ERROR_INVALID_STATE);
        }
        tried := true;
        sw := PkiBindDescriptor(key.value, network, !names);
        trusted.ClearTrustedNameBinding();
        if sw != SWO_SUCCESS {
          address := [];
          return tried, SendRejection(sw);
        }
      }
      return tried, ShowReview;
    }

    lemma ShapeOfKeyPath(p1: uint8, p2: uint8, cdata: seq<byte>)
      ensures var k := ParseKeyPath(p1, p2, cdata);
        k.KeyPath? ==> k.variant != Invalid && (k.variant != Full ==> |k.nodes| >= 5)
    {
    }
  }

  /** How the command is answered. */
  datatype Answer = ShowReview | SendRejection(sw: int) | Threw(sw: int)
}
