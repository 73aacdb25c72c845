/**
 Token operations byte by byte: the words and numbers of the wire format spelled out, and what the
 device makes of them. Nothing here rests on the constants of the grammar.
 */
module PltWire {
  import opened Bytes
  import opened Cbor
  import opened DerivationPath
  import opened Options
  import opened PltFlow
  import opened PltGrammar
  import opened PltParser
  import opened TxHash

  /** Content, up to a zero byte, names an operation exactly if it is one of these nine words. */
  lemma OperationNames(content: seq<byte>)
    ensures OpTypeOf(content) == Some(Transfer) <==> CString(content) == Ascii("transfer")
    ensures OpTypeOf(content) == Some(Mint) <==> CString(content) == Ascii("mint")
    ensures OpTypeOf(content) == Some(Burn) <==> CString(content) == Ascii("burn")
    ensures OpTypeOf(content) == Some(AddAllowList) <==> CString(content) == Ascii("addAllowList")
    ensures OpTypeOf(content) == Some(RemoveAllowList) <==> CString(content) == Ascii("removeAllowList")
    ensures OpTypeOf(content) == Some(AddDenyList) <==> CString(content) == Ascii("addDenyList")
    ensures OpTypeOf(content) == Some(RemoveDenyList) <==> CString(content) == Ascii("removeDenyList")
    ensures OpTypeOf(content) == Some(Pause) <==> CString(content) == Ascii("pause")
    ensures OpTypeOf(content) == Some(Unpause) <==> CString(content) == Ascii("unpause")
  {
    hide CString;
    SpelledOperations();
    Unlike();
  }

  lemma SpelledOperations()
    ensures NAME_TRANSFER == Ascii("transfer") && NAME_MINT == Ascii("mint") && NAME_BURN == Ascii("burn")
    ensures NAME_ADD_ALLOW_LIST == Ascii("addAllowList") && NAME_REMOVE_ALLOW_LIST == Ascii("removeAllowList")
    ensures NAME_ADD_DENY_LIST == Ascii("addDenyList") && NAME_REMOVE_DENY_LIST == Ascii("removeDenyList")
    ensures NAME_PAUSE == Ascii("pause") && NAME_UNPAUSE == Ascii("unpause")
  {
  }

  lemma Unlike()
    ensures |NAME_TRANSFER| == 8 && |NAME_MINT| == 4 && |NAME_BURN| == 4 && |NAME_ADD_ALLOW_LIST| == 12
    ensures |NAME_REMOVE_ALLOW_LIST| == 15 && |NAME_ADD_DENY_LIST| == 11 && |NAME_REMOVE_DENY_LIST| == 14
    ensures |NAME_PAUSE| == 5 && |NAME_UNPAUSE| == 7 && NAME_MINT[0] != NAME_BURN[0]
  {
  }

  /** Content, up to a zero byte, names a field exactly if it is one of these four words. */
  lemma FieldWords(content: seq<byte>)
    ensures FieldKindOf(content) == AmountKind <==> CString(content) == Ascii("amount")
    ensures FieldKindOf(content) == AddressKind <==> CString(content) in {Ascii("recipient"), Ascii("target")}
    ensures FieldKindOf(content) == MemoKind <==> CString(content) == Ascii("memo")
  {
    hide CString;
    SpelledFields();
    assert |NAME_AMOUNT| == 6 && |NAME_TARGET| == 6 && |NAME_MEMO| == 4 && |NAME_RECIPIENT| == 9;
    assert NAME_AMOUNT[0] != NAME_TARGET[0];
  }

  lemma SpelledFields()
    ensures NAME_AMOUNT == Ascii("amount") && NAME_MEMO == Ascii("memo")
    ensures NAME_RECIPIENT == Ascii("recipient") && NAME_TARGET == Ascii("target")
  {
  }

  // ---- The payload, written out ----

  /** The initial byte and argument of an item in shortest form; `top` holds the major type. */
  function Short(top: byte, n: nat): seq<byte>
    requires top <= 0xC0 && n <= UINT64_MAX
  {
    if n < 24 then [top + n] else if n < 0x100 then [top + 24, n] else if n < 0x1_0000 then [top + 25] + ToBe(n, 2)
    else if n < 0x1_0000_0000 then [top + 26] + ToBe(n, 4) else [top + 27] + ToBe(n, 8)
  }

  function Word(op: OpType): (word: string)
    ensures |word| <= 15 && forall i :: 0 <= i < |word| ==> word[i] < '\U{0080}'
  {
    match op
    case Transfer => "transfer"
    case Mint => "mint"
    case Burn => "burn"
    case AddAllowList => "addAllowList"
    case RemoveAllowList => "removeAllowList"
    case AddDenyList => "addDenyList"
    case RemoveDenyList => "removeDenyList"
    case Pause => "pause"
    case Unpause => "unpause"
  }

  /** Tag 4, and an array of the exponent and the significand. */
  function AmountBytes(significand: nat, exponent: int): seq<byte>
    requires significand <= UINT64_MAX && -18 <= exponent <= 0
  {
    [0xC4, 0x82] + [if exponent == 0 then 0x00 else 0x1F - exponent] + Short(0x00, significand)
  }

  /** Tag 40307, and a map of key 3 to the 32 bytes, perhaps behind key 1 with tag 40305 and a map of key 1 to 919. */
  function AddressBytes(account: seq<byte>, withInfo: bool): seq<byte> {
    [0xD9, 0x9D, 0x73]
    + (if withInfo then [0xA2, 0x01, 0xD9, 0x9D, 0x71, 0xA1, 0x01, 0x19, 0x03, 0x97] else [0xA1])
    + [0x03, 0x58, 0x20] + account
  }

  /** Tag 24, and a byte string that holds one text. */
  function MemoBytes(text: seq<byte>): seq<byte>
    requires |text| <= 256
  {
    var item := Short(0x60, |text|) + text;
    [0xD8, 0x18] + (Short(0x40, |item|) + item)
  }

  function ValueBytes(t: TokenOperation, kind: FieldKind, withInfo: bool): seq<byte>
    requires ValidToken(t) && Present(t, kind)
  {
    match kind
    case AmountKind => AmountBytes(t.amount.value.0, t.amount.value.1)
    case AddressKind => AddressBytes(t.account.value, withInfo)
    case MemoKind => MemoBytes(t.memo.value)
  }

  /** A field: its name, with the length in front, and its value. */
  function FieldBytes(t: TokenOperation, kind: FieldKind, withInfo: bool): seq<byte>
    requires ValidToken(t) && Present(t, kind)
  {
    (match kind
     case AmountKind => [0x66] + Ascii("amount")
     case AddressKind => if t.op.Transfer? then [0x69] + Ascii("recipient") else [0x66] + Ascii("target")
     case MemoKind => [0x64] + Ascii("memo"))
    + ValueBytes(t, kind, withInfo)
  }

  function FieldsBytes(t: TokenOperation, order: seq<FieldKind>, withInfo: bool): seq<byte>
    requires ValidToken(t) && forall i :: 0 <= i < |order| ==> Present(t, order[i])
  {
    if order == [] then [] else FieldBytes(t, order[0], withInfo) + FieldsBytes(t, order[1..], withInfo)
  }

  /** An array of one map of the operation's name to a map of its fields. */
  function Spelled(t: TokenOperation, order: seq<FieldKind>, withInfo: bool): seq<byte>
    requires ValidToken(t) && Covers(t, order)
  {
    [0x81, 0xA1] + ([0x60 + |Word(t.op)|] + Ascii(Word(t.op))) + (Short(0xA0, |order|) + FieldsBytes(t, order, withInfo))
  }

  lemma HeadIsShort(major: byte, n: nat)
    requires major < 7 && n <= UINT64_MAX
    ensures WriteHead(major, n, Shortest(n)) == Short(32 * major, n)
  {
    Pow256Values();
    if 24 <= n < 0x100 {
      assert ToBe(n, 1) == ToBe(n / 256, 0) + [n % 256];
    }
  }

  lemma NameIsSpelled(op: OpType)
    ensures NameOf(op) == Ascii(Word(op)) && |NameOf(op)| <= 15
    ensures PrintStr(TEXT, Name(NameOf(op))) == [0x60 + |Word(op)|] + Ascii(Word(op))
  {
    SpelledOperations();
    HeadIsShort(TEXT, |NameOf(op)|);
  }

  lemma NamesAreSpelled()
    ensures PrintStr(TEXT, Name(NAME_AMOUNT)) == [0x66] + Ascii("amount")
    ensures PrintStr(TEXT, Name(NAME_RECIPIENT)) == [0x69] + Ascii("recipient")
    ensures PrintStr(TEXT, Name(NAME_TARGET)) == [0x66] + Ascii("target")
    ensures PrintStr(TEXT, Name(NAME_MEMO)) == [0x64] + Ascii("memo")
  {
    SpelledFields();
    HeadIsShort(TEXT, 9);
    HeadIsShort(TEXT, 6);
    HeadIsShort(TEXT, 4);
  }

  lemma ExponentIsSpelled(exponent: int)
    requires -18 <= exponent <= 0
    ensures PrintExponent(EncodeExponent(exponent)) == [if exponent == 0 then 0x00 else 0x1F - exponent]
  {
  }

  lemma AmountIsSpelled(significand: nat, exponent: int)
    requires significand <= UINT64_MAX && -18 <= exponent <= 0
    ensures var a := Amount(Inline, Inline, EncodeExponent(exponent), Shortest(significand), significand);
      ValidAmount(a) && PrintAmount(a) == AmountBytes(significand, exponent)
  {
    hide ToBe, PrintExponent, WriteHead, Short, Width.Holds, Pow256;
    ExponentIsSpelled(exponent);
    HeadIsShort(UNSIGNED, significand);
    FractionHeads();
  }

  lemma FractionHeads()
    ensures Inline.Holds(4) && WriteHead(TAG, 4, Inline) == [0xC4] && Inline.Holds(2) && WriteHead(ARRAY, 2, Inline) == [0x82]
    ensures Inline.Holds(0) && forall raw :: 0 <= raw < 18 ==> Inline.Holds(raw)
  {
  }

  lemma TagIsSpelled(n: nat, high: byte, low: byte)
    requires n == 0x100 * high as int + low && n > 255
    ensures Two.Holds(n) && WriteHead(TAG, n, Two) == [0xD9, high, low] && WriteHead(UNSIGNED, n, Two) == [0x19, high, low]
  {
    Pow256Values();
    assert n / 256 == high && n % 256 == low;
    assert ToBe(n, 2) == ToBe(n / 256, 1) + [n % 256];
    assert ToBe(high, 1) == ToBe(0, 0) + [high];
  }

  const CCD_INFO := CoinInfo(Two, Inline, Inline, Two)

  lemma SmallHeads()
    ensures Inline.Holds(1) && Inline.Holds(2) && Inline.Holds(3)
    ensures WriteHead(UNSIGNED, 1, Inline) == [0x01] && WriteHead(UNSIGNED, 3, Inline) == [0x03]
    ensures WriteHead(MAP, 1, Inline) == [0xA1] && WriteHead(MAP, 2, Inline) == [0xA2]
  {
  }

  lemma InfoIsSpelled()
    ensures ValidCoinInfo(CCD_INFO) && PrintCoinInfo(CCD_INFO) == [0xD9, 0x9D, 0x71, 0xA1, 0x01, 0x19, 0x03, 0x97]
  {
    hide ToBe, WriteHead, Pow256, Width.Holds;
    TagIsSpelled(40305, 0x9D, 0x71);
    TagIsSpelled(919, 0x03, 0x97);
    SmallHeads();
    assert [0xD9, 0x9D, 0x71] + ([0xA1] + ([0x01] + [0x19, 0x03, 0x97])) == [0xD9, 0x9D, 0x71, 0xA1, 0x01, 0x19, 0x03, 0x97];
  }

  lemma InfoEntryIsSpelled()
    ensures ValidEntry(Info(Inline, CCD_INFO))
    ensures PrintEntry(Info(Inline, CCD_INFO)) == [0x01, 0xD9, 0x9D, 0x71, 0xA1, 0x01, 0x19, 0x03, 0x97]
  {
    hide ValidCoinInfo, PrintCoinInfo, WriteHead, Width.Holds;
    InfoIsSpelled();
    SmallHeads();
  }

  lemma DataEntryIsSpelled(account: seq<byte>)
    requires |account| == 32
    ensures ValidEntry(Data(Inline, Name(account))) && PrintEntry(Data(Inline, Name(account))) == [0x03, 0x58, 0x20] + account
  {
    hide ToBe, WriteHead, Width.Holds, Pow256;
    LengthIsSpelled();
    SmallHeads();
    assert PrintStr(BYTES, Name(account)) == [0x58, 0x20] + account;
    assert [0x03] + ([0x58, 0x20] + account) == [0x03, 0x58, 0x20] + account;
  }

  lemma LengthIsSpelled()
    ensures Shortest(32) == One && WriteHead(BYTES, 32, One) == [0x58, 0x20]
  {
    HeadIsShort(BYTES, 32);
  }

  lemma AddressIsSpelled(account: seq<byte>, withInfo: bool)
    requires |account| == 32 && ValidAddress(EncodeAddress(account, withInfo))
    ensures PrintAddress(EncodeAddress(account, withInfo)) == AddressBytes(account, withInfo)
  {
    hide ToBe, Short, WriteHead, PrintEntry, ValidEntry, Width.Holds, Pow256;
    TagIsSpelled(40307, 0x9D, 0x73);
    InfoEntryIsSpelled();
    DataEntryIsSpelled(account);
    SmallHeads();
    var info, data := Info(Inline, CCD_INFO), Data(Inline, Name(account));
    assert [data][1..] == [] && [info, data][1..] == [data];
    assert PrintEntries([data]) == PrintEntry(data);
    assert PrintEntries([info, data]) == PrintEntry(info) + PrintEntry(data);
    hide PrintEntries;
    if withInfo {
      assert [0xA2] + (PrintEntry(info) + PrintEntry(data))
          == [0xA2, 0x01, 0xD9, 0x9D, 0x71, 0xA1, 0x01, 0x19, 0x03, 0x97] + ([0x03, 0x58, 0x20] + account);
    } else {
      assert [0xA1] + PrintEntry(data) == [0xA1] + ([0x03, 0x58, 0x20] + account);
    }
  }

  lemma MemoIsSpelled(text: seq<byte>)
    requires |text| <= 256 && ValidMemo(EncodeMemo(text))
    ensures PrintMemo(EncodeMemo(text)) == MemoBytes(text)
  {
    var m := EncodeMemo(text);
    HeadIsShort(TAG, 24);
    HeadIsShort(TEXT, |text|);
    HeadIsShort(BYTES, |MemoItem(m)|);
    assert Short(0xC0, 24) == [0xD8, 0x18];
    hide ToBe, Short;
    assert MemoItem(m) == Short(0x60, |text|) + text;
  }

  lemma FieldIsSpelled(t: TokenOperation, kind: FieldKind, withInfo: bool)
    requires ValidToken(t) && Present(t, kind)
    ensures ValidField(EncodeField(t, kind, withInfo))
    ensures PrintField(EncodeField(t, kind, withInfo)) == FieldBytes(t, kind, withInfo)
  {
    EncodedFieldIsValid(t, kind, withInfo);
    NamesAreSpelled();
    ValueIsSpelled(t, kind, withInfo);
    hide FieldKindOf, PrintValue, ValidField, PrintStr, Short, Ascii, EncodeExponent, EncodeAddress, EncodeMemo, ValueBytes;
  }

  lemma ValueIsSpelled(t: TokenOperation, kind: FieldKind, withInfo: bool)
    requires ValidToken(t) && Present(t, kind) && ValidField(EncodeField(t, kind, withInfo))
    ensures PrintValue(EncodeField(t, kind, withInfo)) == ValueBytes(t, kind, withInfo)
  {
    hide FieldKindOf, ToBe, PrintAddress, ValidAddress, PrintAmount, ValidAmount, PrintMemo, ValidMemo, PrintStr, Short, Ascii,
         EncodeExponent, Shortest, EncodeAddress, EncodeMemo;
    match kind
    case AmountKind => AmountIsSpelled(t.amount.value.0, t.amount.value.1);
    case AddressKind => AddressIsSpelled(t.account.value, withInfo);
    case MemoKind => MemoIsSpelled(t.memo.value);
  }

  lemma {:induction false} FieldsAreSpelled(t: TokenOperation, order: seq<FieldKind>, withInfo: bool)
    requires ValidToken(t) && forall i :: 0 <= i < |order| ==> Present(t, order[i])
    ensures ValidFields(EncodeFields(t, order, withInfo))
    ensures PrintFields(EncodeFields(t, order, withInfo)) == FieldsBytes(t, order, withInfo)
    decreases |order|
  {
    hide ValidField, EncodeField, ValidToken, PrintField, FieldBytes;
    if order != [] {
      FieldIsSpelled(t, order[0], withInfo);
      FieldsAreSpelled(t, order[1..], withInfo);
      assert EncodeFields(t, order, withInfo)[1..] == EncodeFields(t, order[1..], withInfo);
    }
  }

  lemma OrderIsShort(t: TokenOperation, order: seq<FieldKind>, withInfo: bool)
    requires ValidToken(t) && Covers(t, order)
    ensures |EncodeFields(t, order, withInfo)| == |order| && WriteHead(ARRAY, 1, Inline) == [0x81]
    ensures WriteHead(MAP, |order|, Shortest(|order|)) == Short(0xA0, |order|)
  {
    HeadIsShort(MAP, |order|);
  }

  /** The encoding of an operation is these bytes. */
  lemma PayloadIsSpelled(t: TokenOperation, order: seq<FieldKind>, withInfo: bool)
    requires ValidToken(t) && Covers(t, order)
    ensures Payload(t, order, withInfo) == Spelled(t, order, withInfo)
  {
    hide ValidOperation, ToBe, EncodeFields, FieldsBytes, PrintFields, ValidFields, PrintStr, Short, WriteHead, Width.Holds, NameOf,
         Name, ValidToken;
    EncodedOperationIsReviewed(t, order, withInfo);
    FieldsAreSpelled(t, order, withInfo);
    NameIsSpelled(t.op);
    SmallHeads();
    OrderIsShort(t, order, withInfo);
  }

  /** These bytes are parsed as the operation they spell, and reviewed as it. */
  lemma SpelledIsParsed(t: TokenOperation, order: seq<FieldKind>, withInfo: bool)
    requires ValidToken(t) && Covers(t, order)
    ensures var p := ParsePlt(Spelled(t, order, withInfo));
      p.Parsed? && ValidOperation(p.operation) && ReviewOf(p.operation) == Review(t.op, t.amount, t.account, t.memo)
  {
    hide ParsePlt, ValidOperation, Print;
    PayloadIsSpelled(t, order, withInfo);
    EncodedOperationIsReviewed(t, order, withInfo);
    ParseIsComplete(EncodeOperation(t, order, withInfo));
  }

  /** INIT written out: where the data of a command says which path signs what kind of transaction. */
  predicate Opens(cdata: seq<byte>, path: Path, header: seq<byte>, id: seq<byte>, total: nat, fee: seq<byte>)
    requires |id| <= 255
  {
    && SignsAt(cdata, path) && |header| == 60
    && cdata == cdata[..1 + 4 * |path.nodes|] + (header + [27]) + ([|id|] + (id + (ToBe(total, 4) + fee)))
  }

  /**
   From INIT on, in bytes: an operation spelled in at most 512 of them, in any packets of 1 to 255,
   reaches the signing screen; the screen shows that operation and the fee estimate, if there is one,
   and the hash covers the header, kind 27, the token, the length and those bytes.
   */
  lemma SpelledIsSigned(t: TokenOperation, order: seq<FieldKind>, withInfo: bool, s: State, p2: uint8, cdata: seq<byte>,
                        path: Path, header: seq<byte>, id: seq<byte>, fee: seq<byte>, chunks: seq<seq<byte>>)
    requires ValidToken(t) && Covers(t, order) && s.stage.Initial? && p2 <= 1
    requires 1 <= |id| <= 128 && DisplayableText(id) && |fee| == (if p2 == 1 then 8 else 0)
    requires |Spelled(t, order, withInfo)| <= 512 && Opens(cdata, path, header, id, |Spelled(t, order, withInfo)|, fee)
    requires chunks != [] && Chunks(chunks) && Flatten(chunks) == Spelled(t, order, withInfo)
    ensures var payload := Spelled(t, order, withInfo);
      var (s0, init) := Step(s, 0, p2, cdata);
      var (s', reply) := Feed(s0, chunks);
      && init == Ack && s0.received == [] && s0.total == |payload|
      && reply == Sign && s'.review == Some(Review(t.op, t.amount, t.account, t.memo))
      && s'.path == path && s'.hash == header + [27] + [|id|] + id + ToBe(|payload|, 4) + payload && s'.tokenId == id
      && (s'.fee.Some? <==> p2 == 1 && FromBe(fee) != 0xFFFF_FFFF_FFFF_FFFF)
      && (s'.fee.Some? ==> s'.fee.value == FromBe(fee))
  {
    hide Spelled, Payload, StartTransaction, SignsAt, DisplayableText, FromBe, ToBe, Feed, Step;
    PayloadIsSpelled(t, order, withInfo);
    var total := |Spelled(t, order, withInfo)|;
    StartIff(cdata, PLT_KIND, path, header + [27], InitTail(id, total, fee));
    RoundTrip(t, order, withInfo, s, p2, cdata, id, fee, chunks);
    assert Prefix(header + [27], id, total) == header + [27] + [|id|] + id + ToBe(total, 4);
  }
}
