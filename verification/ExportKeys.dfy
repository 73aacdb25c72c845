/** src/handler/export_private_key_new_path.c: which keys a purpose releases, and how they are laid out. */
module ExportKeys {
  import opened Bytes
  import opened DerivationPath
  import opened Options
  import opened Status

  datatype KeyType = IdCredSec | PrfKey | Blinding | Commitment

  function KeyIndex(t: KeyType): uint32 {
    match t case IdCredSec => 2 case PrfKey => 3 case Blinding => 4 case Commitment => COMMITMENT_RANDOMNESS
  }

  /** The commitment key leaves the device as the raw extended key; the others are one-way BLS keys. */
  function KeyLength(t: KeyType): uint8 {
    if t.Commitment? then 64 else 32
  }

  function KeysFor(purpose: uint8): Option<seq<KeyType>> {
    match purpose
    case 0 => Some([IdCredSec, PrfKey, Blinding])
    case 1 => Some([PrfKey, IdCredSec, Commitment])
    case 2 => Some([IdCredSec, Blinding])
    case 3 => Some([PrfKey])
    case 4 => Some([Commitment])
    case _ => None
  }

  function CoinType(network: uint8): Option<uint32> {
    match network
    case 0 => Some(MAINNET_COIN_TYPE)
    case 1 => Some(TESTNET_COIN_TYPE)
    case _ => None
  }

  /** The hardened path a key is derived at. */
  function ExportPath(coin: uint32, idp: uint32, identity: uint32, t: KeyType, account: uint32): (nodes: seq<uint32>)
    ensures |nodes| <= NODES_MAX
  {
    HardenAll([NEW_PURPOSE, coin, idp, identity, KeyIndex(t)] + if t.Commitment? then [account] else [])
  }

  // ---- Exported raw keys are not signing keys ----

  /** Some command data makes the path parser return these hardened nodes. */
  ghost predicate Signable(nodes: seq<uint32>) {
    exists cdata: seq<byte> :: ParsePath(cdata).ParsedPath? && ParsePath(cdata).path.nodes == nodes
  }

  lemma HardenedIsStable(nodes: seq<uint32>)
    ensures HardenAll(HardenAll(nodes)) == HardenAll(nodes)
    ensures MaskAll(HardenAll(nodes)) == MaskAll(nodes)
  {
  }

  lemma ParsedPathIsNotExportable(cdata: seq<byte>)
    requires ParsePath(cdata).ParsedPath?
    ensures var nodes := ParsePath(cdata).path.nodes;
      !(|nodes| == NEW_LEN + 1 && Mask(nodes[0]) == NEW_PURPOSE && Mask(nodes[INDEX_ACCOUNT_NEW]) == COMMITMENT_RANDOMNESS)
  {
    var nodes := WireNodes(cdata);
    if |nodes| == NEW_LEN + 1 {
      assert Mask(HardenAll(nodes)[0]) == Mask(nodes[0]);
    }
  }

  /** A path whose key INS 0x37 derives can also be signed with exactly when the key is not exported raw. */
  lemma SignableExports(coin: uint32, idp: uint32, identity: uint32, t: KeyType, account: uint32)
    ensures Signable(ExportPath(coin, idp, identity, t, account)) <==> !t.Commitment?
  {
    var path := ExportPath(coin, idp, identity, t, account);
    assert Mask(path[0]) == NEW_PURPOSE && Mask(path[4]) == KeyIndex(t);
    if t.Commitment? {
      forall cdata: seq<byte> | ParsePath(cdata).ParsedPath?
        ensures ParsePath(cdata).path.nodes != path
      {
        ParsedPathIsNotExportable(cdata);
      }
    } else {
      var cdata := WritePath(path);
      WireRoundTrip(path, []);
      assert cdata + [] == cdata;
      HardenedIsStable([NEW_PURPOSE, coin, idp, identity, KeyIndex(t)]);
      assert ParsePath(cdata).ParsedPath? && ParsePath(cdata).path.nodes == path;
    }
  }

  // ---- The output buffer ----

  const OUTPUT_SIZE := 3 * 65

  /** What a key derivation does: it returns the key, or throws. */
  datatype Derived = Key(key: seq<byte>) | DeriveThrew(sw: pos)

  type pos = n: int | n > 0 witness 1

  /** The derivation of one key type at one path; its cryptography is not part of this model. */
  type Derivation = (KeyType, seq<uint32>) -> Derived

  ghost predicate Honest(derive: Derivation) {
    forall t, path :: derive(t, path).Key? ==> |derive(t, path).key| == if t.Commitment? then 64 else 32
  }

  datatype Exported = Exported(output: seq<byte>) | ExportFailed(sw: pos)

  datatype Request = Request(coin: uint32, idp: uint32, identity: uint32, account: uint32)

  function PathOf(r: Request, t: KeyType): seq<uint32> {
    ExportPath(r.coin, r.idp, r.identity, t, r.account)
  }

  /** The records of `types`, appended behind `used` bytes of a buffer of `size`. */
  function Export(types: seq<KeyType>, r: Request, derive: Derivation, used: nat, size: nat): Exported
    decreases |types|
  {
    if types == [] then Exported([])
    else if used + 1 + KeyLength(types[0]) > size then ExportFailed(ERROR_BUFFER_OVERFLOW)
    else
      match derive(types[0], PathOf(r, types[0]))
      case DeriveThrew(sw) => ExportFailed(sw)
      case Key(key) =>
        match Export(types[1..], r, derive, used + 1 + KeyLength(types[0]), size)
        case ExportFailed(sw) => ExportFailed(sw)
        case Exported(more) => Exported([KeyLength(types[0])] + key + more)
  }

  /** The host's reader: a length byte, that many key bytes, and so on to the end. */
  function Split(output: seq<byte>): Option<seq<seq<byte>>>
    decreases |output|
  {
    if output == [] then Some([])
    else if |output| - 1 < output[0] then None
    else
      var more := Split(output[1..][output[0]..]);
      if more.None? then None else Some([output[1..][..output[0]]] + more.value)
  }

  function KeysOf(types: seq<KeyType>, r: Request, derive: Derivation): seq<seq<byte>>
    requires forall i :: 0 <= i < |types| ==> derive(types[i], PathOf(r, types[i])).Key?
  {
    seq(|types|, i requires 0 <= i < |types| => derive(types[i], PathOf(r, types[i])).key)
  }

  function TotalLength(types: seq<KeyType>): nat {
    if types == [] then 0 else 1 + KeyLength(types[0]) + TotalLength(types[1..])
  }

  lemma SplitRecord(length: uint8, key: seq<byte>, more: seq<byte>)
    requires |key| == length && Split(more).Some?
    ensures Split([length] + key + more) == Some([key] + Split(more).value)
  {
    var output := [length] + key + more;
    assert output[1..] == key + more;
    assert output[1..][..length] == key && output[1..][length..] == more;
  }

  /** Success means every key was derived, all of them fit, and the host can take the output apart again. */
  lemma {:induction false} ExportSplits(types: seq<KeyType>, r: Request, derive: Derivation, used: nat, size: nat)
    requires Honest(derive) && used <= size && Export(types, r, derive, used, size).Exported?
    ensures forall i :: 0 <= i < |types| ==> derive(types[i], PathOf(r, types[i])).Key?
    ensures var output := Export(types, r, derive, used, size).output;
      |output| == TotalLength(types) && used + |output| <= size
      && Split(output).Some? && Split(output).value == KeysOf(types, r, derive)
    decreases |types|
  {
    if types != [] {
      var t := types[0];
      ExportSplits(types[1..], r, derive, used + 1 + KeyLength(t), size);
      assert forall i :: 1 <= i < |types| ==> types[i] == types[1..][i - 1];
      var output := Export(types, r, derive, used, size).output;
      var more := Export(types[1..], r, derive, used + 1 + KeyLength(t), size).output;
      assert output == [KeyLength(t)] + derive(t, PathOf(r, t)).key + more;
      SplitRecord(KeyLength(t), derive(t, PathOf(r, t)).key, more);
      assert KeysOf(types, r, derive) == [derive(t, PathOf(r, t)).key] + KeysOf(types[1..], r, derive);
    }
  }

  /** With the caller's buffer, nothing but a derivation can fail. */
  lemma {:induction false} NoOverflow(types: seq<KeyType>, r: Request, derive: Derivation, used: nat)
    requires used + TotalLength(types) <= OUTPUT_SIZE
    requires forall i :: 0 <= i < |types| ==> derive(types[i], PathOf(r, types[i])).Key?
    ensures Export(types, r, derive, used, OUTPUT_SIZE).Exported?
    decreases |types|
  {
    if types != [] {
      assert forall i :: 1 <= i < |types| ==> types[i] == types[1..][i - 1];
      NoOverflow(types[1..], r, derive, used + 1 + KeyLength(types[0]));
    }
  }

  lemma EveryPurposeFits(purpose: uint8)
    ensures KeysFor(purpose).Some? <==> purpose <= 4
    ensures purpose <= 4 ==> TotalLength(KeysFor(purpose).value) <= 195
    ensures forall network: uint8 :: CoinType(network).Some? <==> network <= 1
  {
    if purpose <= 4 {
      var types := KeysFor(purpose).value;
      assert types[1..] == [] || types[1..][1..] == [] || types[1..][1..][1..] == [];
    }
  }

  /**
   What each purpose releases, with the paths written out: under m/44'/919'/idp'/identity' or, on the
   test network, m/44'/1'/idp'/identity', the keys IdCredSec 2', PRF 3', blinding 4' and commitment 5'/account'.
   */
  lemma PurposeReleases(purpose: uint8, network: uint8, idp: uint32, identity: uint32, account: uint32, derive: Derivation)
    requires Honest(derive) && purpose <= 4 && network <= 1 && idp < 0x8000_0000 && identity < 0x8000_0000
    requires purpose == 1 || purpose == 4 ==> account < 0x8000_0000
    ensures CoinType(network).Some? && KeysFor(purpose).Some?
    ensures var base := [0x8000_002C, if network == 0 then 0x8000_0397 else 0x8000_0001, 0x8000_0000 + idp, 0x8000_0000 + identity];
      var out := Export(KeysFor(purpose).value, Request(CoinType(network).value, idp, identity, account), derive, 0, 195);
      out.Exported? ==>
        Split(out.output) == Some(
          match purpose
          case 0 => [Raw(derive, IdCredSec, base + [0x8000_0002]), Raw(derive, PrfKey, base + [0x8000_0003]),
                     Raw(derive, Blinding, base + [0x8000_0004])]
          case 1 => [Raw(derive, PrfKey, base + [0x8000_0003]), Raw(derive, IdCredSec, base + [0x8000_0002]),
                     Raw(derive, Commitment, base + [0x8000_0005, 0x8000_0000 + account])]
          case 2 => [Raw(derive, IdCredSec, base + [0x8000_0002]), Raw(derive, Blinding, base + [0x8000_0004])]
          case 3 => [Raw(derive, PrfKey, base + [0x8000_0003])]
          case _ => [Raw(derive, Commitment, base + [0x8000_0005, 0x8000_0000 + account])])
  {
    hide Export, Split, HardenAll;
    var types, r := KeysFor(purpose).value, Request(CoinType(network).value, idp, identity, account);
    if Export(types, r, derive, 0, 195).Exported? {
      ExportSplits(types, r, derive, 0, 195);
      forall t | t in types ensures PathOf(r, t) == Spelled(network, idp, identity, account, t) {
        PathIsSpelled(network, idp, identity, account, t);
      }
      var keys := KeysOf(types, r, derive);
      forall i | 0 <= i < |types| ensures keys[i] == Raw(derive, types[i], Spelled(network, idp, identity, account, types[i])) {
        assert types[i] in types;
      }
      assert Split(Export(types, r, derive, 0, 195).output) == Some(keys) && |keys| == |types|;
      assert purpose == 0 ==> keys == [keys[0], keys[1], keys[2]];
      assert purpose == 1 ==> keys == [keys[0], keys[1], keys[2]];
      assert purpose == 2 ==> keys == [keys[0], keys[1]];
      assert purpose == 3 || purpose == 4 ==> keys == [keys[0]];
    }
  }

  function Raw(derive: Derivation, t: KeyType, path: seq<uint32>): seq<byte> {
    match derive(t, path) case Key(key) => key case DeriveThrew(_) => []
  }

  function Spelled(network: uint8, idp: uint32, identity: uint32, account: uint32, t: KeyType): seq<uint32>
    requires idp < 0x8000_0000 && identity < 0x8000_0000 && (t.Commitment? ==> account < 0x8000_0000)
  {
    [0x8000_002C, if network == 0 then 0x8000_0397 else 0x8000_0001, 0x8000_0000 + idp, 0x8000_0000 + identity]
    + match t
      case IdCredSec => [0x8000_0002]
      case PrfKey => [0x8000_0003]
      case Blinding => [0x8000_0004]
      case Commitment => [0x8000_0005, 0x8000_0000 + account]
  }

  lemma PathIsSpelled(network: uint8, idp: uint32, identity: uint32, account: uint32, t: KeyType)
    requires network <= 1 && idp < 0x8000_0000 && identity < 0x8000_0000 && (t.Commitment? ==> account < 0x8000_0000)
    ensures ExportPath(CoinType(network).value, idp, identity, t, account) == Spelled(network, idp, identity, account, t)
  {
  }

  /** How the call ends: with a status word, or with a system exception passed on. */
  datatype Ending = Answered(sw: int) | Rethrown(e: int)

  const MAX_SYSTEM_EXCEPTION := 0xFF

  lemma Regroup(a: seq<byte>, b: seq<byte>, c: seq<byte>)
    ensures a + (b + c) == (a + b) + c
  {
  }

  /** A length byte, then that many key bytes. */
  method AppendRecord(output: array<byte>, tx: nat, length: uint8, key: seq<byte>) returns (end: nat)
    requires |key| == length && tx + 1 + length <= output.Length
    modifies output
    ensures end == tx + 1 + length && output[..end] == old(output[..tx]) + ([length] + key)
  {
    output[tx] := length;
    forall i | 0 <= i < |key| {
      output[tx + 1 + i] := key[i];
    }
    end := tx + 1 + |key|;
  }

  /** exportNewPathPrivateKeysForPurpose */
  method ExportForPurpose(purpose: uint8, network: uint8, idp: uint32, identity: uint32, account: uint32,
                          outputPrivateKey: array<byte>, derive: Derivation)
    returns (tx: nat, ending: Ending)
    requires Honest(derive)
    modifies outputPrivateKey
    ensures CoinType(network).None? || KeysFor(purpose).None? ==>
              tx == 0 && ending == Answered(ERROR_INVALID_PARAM) && outputPrivateKey[..] == old(outputPrivateKey[..])
    ensures CoinType(network).Some? && KeysFor(purpose).Some? ==>
              match Export(KeysFor(purpose).value, Request(CoinType(network).value, idp, identity, account), derive,
                           0, outputPrivateKey.Length)
              case Exported(output) =>
                && ending == Answered(SWO_SUCCESS) && tx == |output| <= outputPrivateKey.Length
                && outputPrivateKey[..tx] == output
              case ExportFailed(sw) =>
                && tx == 0 && ending == (if sw <= MAX_SYSTEM_EXCEPTION then Rethrown(sw) else Answered(sw))
                && forall i :: 0 <= i < outputPrivateKey.Length ==> outputPrivateKey[i] == 0
  {
    tx, ending := 0, Answered(SWO_SUCCESS);
    var coin := CoinType(network);
    if coin.None? {
      return 0, Answered(ERROR_INVALID_PARAM);
    }
    var keysToExport := KeysFor(purpose);
    if keysToExport.None? {
      return 0, Answered(ERROR_INVALID_PARAM);
    }
    var types, r := keysToExport.value, Request(coin.value, idp, identity, account);
    ghost var size := outputPrivateKey.Length;
    ghost var whole := Export(types, r, derive, 0, size);
    var thrown: Option<pos> := None;
    var keyIndex := 0;
    assert types[0..] == types;
    while keyIndex < |types| && thrown.None?
      invariant 0 <= keyIndex <= |types| && tx <= size
      invariant thrown.Some? ==> whole == ExportFailed(thrown.value)
      invariant thrown.None? ==> whole == match Export(types[keyIndex..], r, derive, tx, size)
                                          case ExportFailed(sw) => ExportFailed(sw)
                                          case Exported(more) => Exported(outputPrivateKey[..tx] + more)
    {
      var t := types[keyIndex];
      assert types[keyIndex..][1..] == types[keyIndex + 1..];
      if tx + 1 + KeyLength(t) > outputPrivateKey.Length {
        thrown := Some(ERROR_BUFFER_OVERFLOW);
      } else {
        match derive(t, PathOf(r, t)) {
          case DeriveThrew(e) => thrown := Some(e);
          case Key(key) =>
            ghost var before := outputPrivateKey[..tx];
            tx := AppendRecord(outputPrivateKey, tx, KeyLength(t), key);
            ghost var more := Export(types[keyIndex + 1..], r, derive, tx, size);
            if more.Exported? {
              Regroup(before, [KeyLength(t)] + key, more.output);
            }
        }
      }
      keyIndex := keyIndex + 1;
    }
    match thrown {
      case None =>
      case Some(e) =>
        forall i | 0 <= i < outputPrivateKey.Length {
          outputPrivateKey[i] := 0;
        }
        tx := 0;
        ending := if e <= MAX_SYSTEM_EXCEPTION then Rethrown(e) else Answered(e);
    }
  }
}
