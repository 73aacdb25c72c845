/** src/helpers/derivation_path.c: signing paths, read from the wire, hardened, classified and displayed. */
module DerivationPath {
  import opened Bytes
  import opened Decimal
  import opened NumberHelpers
  import opened Status

  const NODES_MAX := 8
  const HARDENED_BIT := 0x8000_0000
  const LEGACY_PURPOSE := 1105
  const NEW_PURPOSE := 44
  const MAINNET_COIN_TYPE := 919
  const TESTNET_COIN_TYPE := 1
  const NEW_LEN := 5
  const INDEX_ACCOUNT_NEW := 4
  const COMMITMENT_RANDOMNESS := 5

  datatype Variant = Legacy | New | Full | Invalid

  datatype Network = Mainnet | Testnet | LegacyNetwork | UnknownNetwork

  /** The value of a derivation_path_t. */
  datatype Path = Path(nodes: seq<uint32>, variant: Variant)

  function Mask(node: uint32): (n: uint32)
    ensures n < HARDENED_BIT
  {
    node % HARDENED_BIT
  }

  function Harden(node: uint32): (n: uint32)
    ensures n >= HARDENED_BIT && Mask(n) == Mask(node)
  {
    if node >= HARDENED_BIT then node else node + HARDENED_BIT
  }

  function HardenAll(nodes: seq<uint32>): (r: seq<uint32>)
    ensures |r| == |nodes| && forall i :: 0 <= i < |nodes| ==> r[i] == Harden(nodes[i])
  {
    seq(|nodes|, i requires 0 <= i < |nodes| => Harden(nodes[i]))
  }

  function MaskAll(nodes: seq<uint32>): (r: seq<uint32>)
    ensures |r| == |nodes| && forall i :: 0 <= i < |nodes| ==> r[i] == Mask(nodes[i])
  {
    seq(|nodes|, i requires 0 <= i < |nodes| => Mask(nodes[i]))
  }

  function VariantOf(nodes: seq<uint32>): Variant {
    if nodes == [] then Invalid
    else if Mask(nodes[0]) == LEGACY_PURPOSE then Legacy
    else if Mask(nodes[0]) == NEW_PURPOSE then New
    else Full
  }

  function NetworkOf(nodes: seq<uint32>): Network {
    if nodes == [] then UnknownNetwork
    else if Mask(nodes[0]) == LEGACY_PURPOSE then LegacyNetwork
    else if Mask(nodes[0]) != NEW_PURPOSE || |nodes| < 2 then UnknownNetwork
    else if Mask(nodes[1]) == MAINNET_COIN_TYPE then Mainnet
    else if Mask(nodes[1]) == TESTNET_COIN_TYPE then Testnet
    else UnknownNetwork
  }

  /** The review names the same network before and after the path is hardened. */
  lemma NetworkIgnoresHardening(nodes: seq<uint32>)
    ensures NetworkOf(HardenAll(nodes)) == NetworkOf(nodes) && VariantOf(HardenAll(nodes)) == VariantOf(nodes)
  {
    if nodes != [] {
      assert Mask(HardenAll(nodes)[0]) == Mask(nodes[0]);
      if |nodes| > 1 {
        assert Mask(HardenAll(nodes)[1]) == Mask(nodes[1]);
      }
    }
  }

  // ---- The wire format: depth, then big-endian nodes ----

  predicate HoldsPath(cdata: seq<byte>) {
    |cdata| >= 1 && cdata[0] <= NODES_MAX && |cdata| >= 1 + 4 * cdata[0]
  }

  function WireNodes(cdata: seq<byte>): (nodes: seq<uint32>)
    requires HoldsPath(cdata)
    ensures |nodes| == cdata[0]
    ensures forall i :: 0 <= i < |nodes| ==> nodes[i] == FromBe(cdata[1 + 4 * i..5 + 4 * i])
  {
    seq(cdata[0], i requires 0 <= i < cdata[0] => NodeAt(cdata, i))
  }

  function NodeAt(cdata: seq<byte>, i: nat): (n: uint32)
    requires HoldsPath(cdata) && i < cdata[0]
    ensures n == FromBe(cdata[1 + 4 * i..5 + 4 * i])
  {
    Pow256Values();
    FromBe(cdata[1 + 4 * i..5 + 4 * i])
  }

  function WriteNodes(nodes: seq<uint32>): seq<byte>
  {
    if nodes == [] then [] else WriteNodes(nodes[..|nodes| - 1]) + ToBe(nodes[|nodes| - 1], 4)
  }

  function WritePath(nodes: seq<uint32>): (s: seq<byte>)
    requires |nodes| <= NODES_MAX
  {
    [|nodes|] + WriteNodes(nodes)
  }

  lemma NodeWritten(nodes: seq<uint32>, tail: seq<byte>, i: nat)
    requires |nodes| <= NODES_MAX && i < |nodes|
    ensures HoldsPath(WritePath(nodes) + tail) && NodeAt(WritePath(nodes) + tail, i) == nodes[i]
  {
    WriteNodesAt(nodes);
    SliceBehind([|nodes|], WriteNodes(nodes), tail, 4 * i);
  }

  /** Nodes written to the wire are the nodes read from it, whatever follows them. */
  lemma WireRoundTrip(nodes: seq<uint32>, tail: seq<byte>)
    requires |nodes| <= NODES_MAX
    ensures HoldsPath(WritePath(nodes) + tail) && WireNodes(WritePath(nodes) + tail) == nodes
  {
    hide WriteNodes, FromBe;
    WriteNodesAt(nodes);
    forall i | 0 <= i < |nodes|
      ensures WireNodes(WritePath(nodes) + tail)[i] == nodes[i]
    {
      NodeWritten(nodes, tail, i);
    }
  }

  lemma SliceBehind(head: seq<byte>, body: seq<byte>, tail: seq<byte>, from: nat)
    requires |head| == 1 && from + 4 <= |body|
    ensures (head + body + tail)[1 + from..5 + from] == body[from..from + 4]
  {
  }

  lemma {:induction false} WriteNodesAt(nodes: seq<uint32>)
    ensures |WriteNodes(nodes)| == 4 * |nodes|
    ensures forall i :: 0 <= i < |nodes| ==> FromBe(WriteNodes(nodes)[4 * i..4 * i + 4]) == nodes[i]
  {
    hide FromBe, ToBe;
    if nodes != [] {
      var front, last := nodes[..|nodes| - 1], |nodes| - 1;
      WriteNodesAt(front);
      var before, w := WriteNodes(front), ToBe(nodes[last], 4);
      assert WriteNodes(nodes) == before + w;
      LastWritten(nodes[last]);
      forall i | 0 <= i < |nodes| ensures FromBe((before + w)[4 * i..4 * i + 4]) == nodes[i] {
        if i < last {
          assert (before + w)[4 * i..4 * i + 4] == before[4 * i..4 * i + 4];
        } else {
          assert (before + w)[4 * i..4 * i + 4] == w;
        }
      }
    }
  }

  lemma LastWritten(node: uint32)
    ensures |ToBe(node, 4)| == 4 && FromBe(ToBe(node, 4)) == node
  {
    Pow256Values();
    FromBeToBe(node, 4);
  }

  /** The one shape whose raw key INS 0x37 hands out: m/44'/coin'/idp'/identity'/5'/account'. */
  predicate ExportableSigningPath(path: Path) {
    path.variant == New && |path.nodes| == NEW_LEN + 1 && Mask(path.nodes[INDEX_ACCOUNT_NEW]) == COMMITMENT_RANDOMNESS
  }

  /** A path, and how many bytes it took, or the status word thrown. */
  datatype ParsedPath = ParsedPath(path: Path, consumed: nat) | PathThrown(sw: int)

  /** parse_derivation_path */
  function ParsePath(cdata: seq<byte>): ParsedPath {
    if !HoldsPath(cdata) then PathThrown(ERROR_INVALID_PATH)
    else
      var nodes := WireNodes(cdata);
      var path := Path(HardenAll(nodes), VariantOf(nodes));
      if ExportableSigningPath(path) then PathThrown(ERROR_INVALID_PATH)
      else ParsedPath(path, 1 + 4 * |nodes|)
  }

  /**
   The path that signs, told from the bytes: at most eight big-endian nodes behind their number, each
   with its top bit set; refused if bytes are missing or it is m/44'/_/_/_/5'/_, whose raw key INS 0x37
   hands out.
   */
  predicate SignsAt(cdata: seq<byte>, path: Path) {
    && |cdata| >= 1 && |path.nodes| == cdata[0] <= 8 && |cdata| >= 1 + 4 * cdata[0]
    && (forall i :: 0 <= i < |path.nodes| ==>
          path.nodes[i] >= 0x8000_0000 && path.nodes[i] - 0x8000_0000 == FromBe(cdata[1 + 4 * i..5 + 4 * i]) % 0x8000_0000)
    && path.variant == (if path.nodes == [] then Invalid else if path.nodes[0] == 0x8000_0000 + 1105 then Legacy
                        else if path.nodes[0] == 0x8000_0000 + 44 then New else Full)
    && !(|path.nodes| == 6 && path.nodes[0] == 0x8000_0000 + 44 && path.nodes[4] == 0x8000_0000 + 5)
  }

  lemma HardenedNode(node: uint32)
    ensures Harden(node) == 0x8000_0000 + node % 0x8000_0000 && Mask(Harden(node)) == node % 0x8000_0000
  {
  }

  /** Data is parsed as the path it spells, and thrown out exactly if it spells none that may sign. */
  lemma ParsedIff(cdata: seq<byte>, path: Path, n: nat)
    ensures ParsePath(cdata) == ParsedPath(path, n) <==> SignsAt(cdata, path) && n == 1 + 4 * |path.nodes|
    ensures ParsePath(cdata).PathThrown? <==>
            || |cdata| == 0 || cdata[0] > 8 || |cdata| < 1 + 4 * cdata[0]
            || (cdata[0] == 6 && FromBe(cdata[1..5]) % 0x8000_0000 == 44 && FromBe(cdata[17..21]) % 0x8000_0000 == 5)
  {
    if HoldsPath(cdata) {
      hide FromBe, Harden, Mask;
      var nodes := WireNodes(cdata);
      forall i | 0 <= i < |nodes|
        ensures HardenAll(nodes)[i] == 0x8000_0000 + nodes[i] % 0x8000_0000 && Mask(HardenAll(nodes)[i]) == nodes[i] % 0x8000_0000
        ensures Mask(nodes[i]) == nodes[i] % 0x8000_0000
      {
        HardenedNode(nodes[i]);
      }
      if SignsAt(cdata, path) {
        assert HardenAll(nodes) == path.nodes;
      }
    }
  }

  // ---- The full path as text ----

  const SLASH: byte := 47
  const QUOTE: byte := 39

  /** 44'/919'/403'/404'/8' */
  function PathText(nodes: seq<uint32>): seq<byte>
    decreases |nodes|, 0
  {
    if nodes == [] then []
    else Separated(nodes[..|nodes| - 1]) + Dec(Mask(nodes[|nodes| - 1])) + [QUOTE]
  }

  /** The text of a path prefix, with the separator its successor needs. */
  function Separated(nodes: seq<uint32>): seq<byte>
    decreases |nodes|, 1
  {
    if nodes == [] then [] else PathText(nodes) + [SLASH]
  }

  /** The text of a path of two nodes, the first one in front. */
  lemma PathTextOfTwo(a: uint32, b: uint32)
    ensures PathText([a, b]) == Dec(a % 0x8000_0000) + Ascii("'/") + Dec(b % 0x8000_0000) + Ascii("'")
  {
    assert [a, b][..1] == [a] && [a][..0] == [];
    assert PathText([a]) == [] + Dec(Mask(a)) + [QUOTE];
  }

  /** Equal texts are equal paths, up to the hardened bit that every node is shown with. */
  lemma {:induction false} PathTextInjective(a: seq<uint32>, b: seq<uint32>)
    requires PathText(a) == PathText(b)
    ensures MaskAll(a) == MaskAll(b)
    decreases |a|
  {
    if a != [] && b != [] {
      var x, y := a[..|a| - 1], b[..|b| - 1];
      LastNodeSplits(Separated(x), Mask(a[|a| - 1]), Separated(y), Mask(b[|b| - 1]));
      if x != [] && y != [] {
        assert PathText(x) == Separated(x)[..|Separated(x)| - 1];
        assert PathText(y) == Separated(y)[..|Separated(y)| - 1];
        PathTextInjective(x, y);
      }
      assert MaskAll(a) == MaskAll(x) + [Mask(a[|a| - 1])];
      assert MaskAll(b) == MaskAll(y) + [Mask(b[|b| - 1])];
    }
  }

  lemma SeparatorComesFirst(x: seq<byte>, m: nat, y: seq<byte>, s: seq<byte>)
    requires s == x + Dec(m) && y <= s
    requires y == [] || y[|y| - 1] == SLASH
    ensures |y| <= |x|
  {
    assert forall k :: |x| <= k < |s| ==> s[k] == Dec(m)[k - |x|];
    assert forall k :: |x| <= k < |s| ==> IsDigit(s[k]);
    assert y != [] ==> s[|y| - 1] == SLASH;
  }

  lemma LastNodeSplits(x: seq<byte>, m: nat, y: seq<byte>, n: nat)
    requires x == [] || x[|x| - 1] == SLASH
    requires y == [] || y[|y| - 1] == SLASH
    requires x + Dec(m) + [QUOTE] == y + Dec(n) + [QUOTE]
    ensures x == y && m == n
  {
    var s, t := x + Dec(m), y + Dec(n);
    assert s == (s + [QUOTE])[..|s|] == (t + [QUOTE])[..|t|] == t;
    SeparatorComesFirst(x, m, y, s);
    SeparatorComesFirst(y, n, x, s);
    assert x == s[..|x|] && y == t[..|x|];
    assert Dec(m) == s[|x|..] && Dec(n) == t[|x|..];
    DecInjective(m, n);
  }

  /** Eight nodes of ten digits never reach the end of the 104-byte row. */
  lemma {:induction false} PathTextLength(nodes: seq<uint32>)
    ensures |PathText(nodes)| <= 12 * |nodes|
    ensures 0 !in PathText(nodes)
  {
    if nodes != [] {
      PathTextLength(nodes[..|nodes| - 1]);
      Pow10Values();
      DecLength(Mask(nodes[|nodes| - 1]), 10);
    }
  }

  lemma PathTextStart()
    ensures PathText([]) == []
  {
  }

  lemma PathTextStep(all: seq<uint32>, i: nat)
    requires i < |all|
    ensures PathText(all[..i + 1])
         == (if i == 0 then [] else PathText(all[..i]) + [SLASH]) + Dec(Mask(all[i])) + [QUOTE]
    ensures |PathText(all[..i + 1])| <= 12 * (i + 1)
  {
    PathTextLength(all[..i + 1]);
    assert all[..i + 1][..i] == all[..i];
  }

  const DISPLAY_SIZE := 104

  /** derivation_path_t */
  class DerivationPath {
    const nodes: array<uint32>
    var len: uint8
    var variant: Variant

    ghost predicate Valid()
      reads this
    {
      nodes.Length == NODES_MAX && len <= NODES_MAX
    }

    ghost function Value(): Path
      requires Valid()
      reads this, nodes
    {
      Path(nodes[..len], variant)
    }

    constructor ()
      ensures Valid() && fresh(nodes) && Value() == Path([], Invalid)
    {
      nodes := new uint32[NODES_MAX](_ => 0);
      len, variant := 0, Invalid;
    }

    /** init_derivation_path */
    method Init()
      requires Valid()
      modifies this, nodes
      ensures Valid() && Value() == Path([], Invalid)
    {
      len := 0;
      for i := 0 to NODES_MAX
        invariant len == 0
      {
        nodes[i] := 0;
      }
      variant := Invalid;
    }

    /** parse_derivation_path_from_buffer */
    method ParseFromBuffer(cdata: seq<byte>) returns (o: Outcome, offset: nat)
      requires Valid()
      modifies this, nodes
      ensures Valid() && o == if HoldsPath(cdata) then Returned else Thrown(ERROR_INVALID_PATH)
      ensures o.Returned? ==> Value() == Path(WireNodes(cdata), Full) && offset == 1 + 4 * cdata[0]
    {
      offset := 0;
      if |cdata| < 1 {
        return Thrown(ERROR_INVALID_PATH), offset;
      }
      var depth := cdata[0];
      if depth > NODES_MAX {
        return Thrown(ERROR_INVALID_PATH), offset;
      }
      if |cdata| < 1 + 4 * depth {
        return Thrown(ERROR_INVALID_PATH), offset;
      }
      len, offset := cdata[0], 1;
      var i := 0;
      while i < len
        invariant 0 <= i <= len == depth && offset == 1 + 4 * i
        invariant forall j :: 0 <= j < i ==> nodes[j] == WireNodes(cdata)[j]
      {
        nodes[i] := NodeAt(cdata, i);
        offset := offset + 4;
        i := i + 1;
      }
      variant := Full;
      o := Returned;
    }

    /** detect_derivation_path_variant */
    method DetectVariant()
      requires Valid()
      modifies this`variant
      ensures Value() == Path(old(Value()).nodes, VariantOf(old(Value()).nodes))
    {
      if len == 0 {
        variant := Invalid;
        return;
      }
      var purpose := Mask(nodes[0]);
      if purpose == LEGACY_PURPOSE {
        variant := Legacy;
      } else if purpose == NEW_PURPOSE {
        variant := New;
      } else {
        variant := Full;
      }
    }

    /** harden_derivation_path */
    method HardenNodes()
      requires Valid()
      modifies nodes
      ensures Value() == Path(HardenAll(old(Value()).nodes), variant)
    {
      ghost var was := Value().nodes;
      var i := 0;
      while i < len
        invariant 0 <= i <= len
        invariant forall j :: 0 <= j < i ==> nodes[j] == Harden(was[j])
        invariant forall j :: i <= j < len ==> nodes[j] == was[j]
      {
        nodes[i] := Harden(nodes[i]);
        i := i + 1;
      }
    }

    /** parse_derivation_path: the global path is only meaningful when nothing was thrown. */
    method Parse(cdata: seq<byte>) returns (o: Outcome, consumed: nat)
      requires Valid()
      modifies this, nodes
      ensures Valid()
      ensures match ParsePath(cdata)
              case ParsedPath(path, n) => o == Returned && Value() == path && consumed == n
              case PathThrown(sw) => o == Thrown(sw)
    {
      Init();
      o, consumed := ParseFromBuffer(cdata);
      if o.Thrown? {
        return;
      }
      DetectVariant();
      HardenNodes();
      if variant == New && len == NEW_LEN + 1 && Mask(nodes[INDEX_ACCOUNT_NEW]) == COMMITMENT_RANDOMNESS {
        o := Thrown(ERROR_INVALID_PATH);
      }
    }

    /** path_display_full: the row shows the whole path unless the buffer cannot hold it. */
    method DisplayFull(dst: array<byte>)
      requires Valid() && dst.Length >= DISPLAY_SIZE
      modifies dst
      ensures CString(dst[..]) == PathText(Value().nodes)
    {
      hide PathText, Separated, Dec;
      ghost var all := Value().nodes;
      Wipe(dst);
      PathTextStart();
      var offset, i := 0, 0;
      while i < len
        invariant 0 <= i <= len && offset == |PathText(all[..i])| <= 12 * i
        invariant dst[..offset] == PathText(all[..i])
      {
        var o;
        PathTextStep(all, i);
        if i > 0 {
          if offset + 1 >= dst.Length {
            return;
          }
          offset, o := PutByte(dst, offset, SLASH);
        }
        offset, o := NumberToText(dst, offset, Mask(nodes[i]));
        if offset + 1 >= dst.Length {
          return;
        }
        offset, o := PutByte(dst, offset, QUOTE);
        i := i + 1;
      }
      assert all[..i] == all;
      PathTextLength(all);
      var _, _ := PutByte(dst, offset, 0);
      assert dst[..] == PathText(all) + [0] + dst[offset + 1..];
      CStringOf(PathText(all), dst[offset + 1..]);
    }
  }
}
