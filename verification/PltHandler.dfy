/** src/handler/sign_plt.c lines 98 to 514: the parser of the payload, and the context it fills in place. */
module PltHandler {
  import opened Bytes
  import opened Cbor
  import opened Options
  import opened PltGrammar
  import opened PltParser
  import opened Status

  const PLT_TOKEN_ID_MAX := 128
  const APP_PLT_CBOR_MAX := 512

  /** The fields of signPltContext_t that parse_plt_cbor writes. */
  class ParseContext {
    var opType: OpType
    var amountSignificand: nat
    var amountExponent: int
    const address: array<byte>
    var hasMemo: bool
    const displayMemo: array<byte>

    ghost predicate Valid()
      reads this
    {
      address.Length == ADDRESS_LENGTH && displayMemo.Length == MEMO_TEXT_MAX + 1 && address != displayMemo
    }

    constructor ()
      ensures Valid() && fresh(address) && fresh(displayMemo)
    {
      opType, amountSignificand, amountExponent, hasMemo := Transfer, 0, 0, false;
      address := new byte[ADDRESS_LENGTH](_ => 0);
      displayMemo := new byte[MEMO_TEXT_MAX + 1](_ => 0);
    }

    /** parse_amount_value */
    method ParseAmountValue(cursor: Cursor) returns (ok: bool, it: Cursor)
      modifies this`amountSignificand, this`amountExponent
      ensures ok <==> ReadAmount(cursor).Some?
      ensures ok ==> var r := ReadAmount(cursor).value;
                && it == r.next && amountSignificand == r.value.significand
                && amountExponent == ExponentValue(r.value.exponent)
    {
      hide ReadHead, Cursor.Behind;
      it := cursor;
      if !it.IsDefinite(TAG) || it.Argument() != TAG_DECIMAL_FRACTION {
        return false, it;
      }
      var content := SkipTag(it);
      if content.None? {
        return false, it;
      }
      it := content.value;
      if !it.IsDefinite(ARRAY) {
        return false, it;
      }
      var entered := Enter(it);
      if entered.None? {
        return false, it;
      }
      var arr := entered.value;
      var exponent := 0;
      if arr.IsDefinite(NEGATIVE) {
        if arr.Argument() > EXPONENT_RAW_MAX {
          return false, it;
        }
        exponent := -(arr.Argument() + 1);
      } else if arr.IsDefinite(UNSIGNED) {
        if arr.Argument() != 0 {
          return false, it;
        }
      } else {
        return false, it;
      }
      var next := Advance(arr);
      if next.None? {
        return false, it;
      }
      arr := next.value;
      if !arr.IsDefinite(UNSIGNED) {
        return false, it;
      }
      var sig := arr.Argument();
      next := Advance(arr);
      if next.None? {
        return false, it;
      }
      arr := next.value;
      if !arr.AtEnd() {
        return false, it;
      }
      var left := Leave(it, arr);
      if left.None? {
        return false, it;
      }
      it := left.value;
      amountSignificand, amountExponent := sig, exponent;
      ok := true;
    }

    /** parse_coininfo_value */
    static method ParseCoininfoValue(cursor: Cursor) returns (ok: bool, it: Cursor)
      ensures ok <==> ReadCoinInfo(cursor).Some?
      ensures ok ==> it == ReadCoinInfo(cursor).value.next
    {
      hide ReadHead, Cursor.Behind;
      it := cursor;
      if !it.IsDefinite(TAG) || it.Argument() != TAG_COININFO {
        return false, it;
      }
      var content := SkipTag(it);
      if content.None? || !content.value.IsDefinite(MAP) {
        return false, it;
      }
      it := content.value;
      var entered := Enter(it);
      if entered.None? {
        return false, it;
      }
      var info, typeSeen := entered.value, false;
      ghost var first := info;
      while !info.AtEnd()
        invariant !typeSeen ==> info == first
        invariant typeSeen ==>
            && first.IsDefinite(UNSIGNED) && first.Argument() == COININFO_KEY_TYPE && Advance(first).Some?
            && var value := Advance(first).value;
               value.IsDefinite(UNSIGNED) && value.Argument() == CCD_COIN_TYPE && Advance(value) == Some(info)
        decreases info.remaining
      {
        if !info.IsDefinite(UNSIGNED) {
          return false, it;
        }
        var key := info.Argument();
        var next := Advance(info);
        if next.None? {
          return false, it;
        }
        if key != COININFO_KEY_TYPE || typeSeen {
          return false, it;
        }
        info := next.value;
        if !info.IsDefinite(UNSIGNED) || info.Argument() != CCD_COIN_TYPE {
          return false, it;
        }
        typeSeen := true;
        next := Advance(info);
        if next.None? {
          return false, it;
        }
        info := next.value;
      }
      var left := Leave(it, info);
      if left.None? {
        return false, it;
      }
      return typeSeen, left.value;
    }

    /** cbor_value_copy_byte_string into the address buffer, which must be filled exactly. */
    method CopyAddress(cursor: Cursor) returns (ok: bool, it: Cursor)
      requires Valid()
      modifies address
      ensures ok <==> ReadStr(cursor, BYTES, ADDRESS_LENGTH).Some?
                      && |Content(ReadStr(cursor, BYTES, ADDRESS_LENGTH).value.value)| == ADDRESS_LENGTH
      ensures ok ==> var r := ReadStr(cursor, BYTES, ADDRESS_LENGTH).value;
                it == r.next && address[..] == Content(r.value)
    {
      var copied := ReadStr(cursor, BYTES, ADDRESS_LENGTH);
      if copied.None? || |Content(copied.value.value)| != ADDRESS_LENGTH {
        return false, cursor;
      }
      var data := Content(copied.value.value);
      forall i | 0 <= i < ADDRESS_LENGTH {
        address[i] := data[i];
      }
      return true, copied.value.next;
    }

    /** The loop of parse_address_value: the keys are iterated, in whatever order they come. */
    method ParseEntries(cursor: Cursor) returns (ok: bool, addr: Cursor, dataSeen: bool)
      requires Valid()
      modifies address
      ensures ok <==> ReadEntries(cursor, false).Some?
      ensures ok ==> var r := ReadEntries(cursor, false).value;
                addr == r.next && AddressData(r.value) == if dataSeen then Some(address[..]) else None
    {
      hide ReadHead, Cursor.Behind, ReadStr, ReadCoinInfo, Content, PrintEntry, ValidEntry;
      addr, dataSeen := cursor, false;
      ghost var whole, done := ReadEntries(addr, false), [];
      assert whole.Some? ==> [] + whole.value.value == whole.value.value;
      while !addr.AtEnd()
        invariant whole == match ReadEntries(addr, dataSeen)
                           case None => None
                           case Some(r) => Some(Read(done + r.value, r.next))
        invariant AddressData(done) == if dataSeen then Some(address[..]) else None
        decreases addr.remaining
      {
        ghost var here, entry := addr, ReadEntry(addr);
        if !addr.IsDefinite(UNSIGNED) {
          return false, addr, dataSeen;
        }
        var key := addr.Argument();
        var next := Advance(addr);
        if next.None? {
          return false, addr, dataSeen;
        }
        addr := next.value;
        var taken;
        if key == ADDRESS_KEY_INFO {
          taken, addr := ParseCoininfoValue(addr);
          if !taken {
            return false, addr, dataSeen;
          }
          AddressDataAppend(done, entry.value.value);
        } else if key == ADDRESS_KEY_DATA {
          if dataSeen {
            return false, addr, dataSeen;
          }
          taken, addr := CopyAddress(addr);
          if !taken {
            return false, addr, dataSeen;
          }
          AddressDataAppend(done, entry.value.value);
          dataSeen := true;
        } else {
          return false, addr, dataSeen;
        }
        EntrySound(here);
        ghost var more := ReadEntries(addr, dataSeen);
        if more.Some? {
          assert done + ([entry.value.value] + more.value.value) == (done + [entry.value.value]) + more.value.value;
        }
        done := done + [entry.value.value];
      }
      assert done + [] == done;
      ok := true;
    }

    /** parse_address_value */
    method ParseAddressValue(cursor: Cursor) returns (ok: bool, it: Cursor)
      requires Valid()
      modifies address
      ensures ok <==> ReadAddress(cursor).Some?
      ensures ok ==> var r := ReadAddress(cursor).value;
                it == r.next && AddressData(r.value.entries) == Some(address[..])
    {
      hide ReadHead, Cursor.Behind, ReadEntries, AddressData;
      it := cursor;
      if !it.IsDefinite(TAG) || it.Argument() != TAG_ACCOUNT_ADDRESS {
        return false, it;
      }
      var content := SkipTag(it);
      if content.None? || !content.value.IsDefinite(MAP) {
        return false, it;
      }
      it := content.value;
      var entered := Enter(it);
      if entered.None? {
        return false, it;
      }
      var taken, addr, dataSeen := ParseEntries(entered.value);
      if !taken {
        return false, it;
      }
      var left := Leave(it, addr);
      if left.None? {
        return false, it;
      }
      return dataSeen, left.value;
    }

    /** decode_memo_cbor */
    method DecodeMemoCbor(envelope: seq<byte>) returns (ok: bool)
      requires Valid()
      modifies displayMemo
      ensures ok <==> DecodeMemo(envelope).Some?
      ensures ok ==> CString(displayMemo[..]) == DecodeMemo(envelope).value.1
    {
      var parser := Open(envelope);
      if parser.None? || !parser.value.Is(TEXT) || !parser.value.IsDefinite(TEXT) {
        return false;
      }
      var value := parser.value;
      var text := StringContent(value);
      if text.None? || |text.value| != |value.Behind()| {
        return false;
      }
      assert text.value == value.Behind();
      if |text.value| > displayMemo.Length - 1 {
        return false;
      }
      var displayable := IsDisplayableText(text.value);
      if !displayable {
        return false;
      }
      forall i | 0 <= i < |text.value| {
        displayMemo[i] := text.value[i];
      }
      displayMemo[|text.value|] := 0;
      assert displayMemo[..] == text.value + [0] + displayMemo[|text.value| + 1..];
      CStringOf(text.value, displayMemo[|text.value| + 1..]);
      return true;
    }

    /** parse_memo_value */
    method ParseMemoValue(cursor: Cursor) returns (ok: bool, it: Cursor)
      requires Valid()
      modifies this`hasMemo, displayMemo
      ensures ok <==> ReadMemo(cursor).Some?
      ensures ok ==> var r := ReadMemo(cursor).value;
                it == r.next && hasMemo && CString(displayMemo[..]) == r.value.text
    {
      hide ReadHead, Cursor.Behind, DecodeMemo;
      hasMemo := false;
      it := cursor;
      if !it.IsDefinite(TAG) || it.Argument() != TAG_ENCODED_CBOR {
        return false, it;
      }
      var content := SkipTag(it);
      if content.None? || !content.value.IsDefinite(BYTES) {
        return false, it;
      }
      it := content.value;
      var envelope := StringContent(it);
      if envelope.None? {
        return false, it;
      }
      var decoded := DecodeMemoCbor(envelope.value);
      if !decoded {
        return false, it;
      }
      var next := SkipString(it);
      if next.None? {
        return false, it;
      }
      hasMemo := true;
      return true, next.value;
    }

    /** What the context holds of the fields seen so far. */
    ghost function Holds(amountSeen: bool, addressSeen: bool): Kept
      requires Valid()
      reads this, address, displayMemo
    {
      Kept(if amountSeen then Some((amountSignificand, amountExponent)) else None,
           if addressSeen then Some(address[..]) else None,
           if hasMemo then Some(CString(displayMemo[..])) else None)
    }

    /** One round of the field loop: the name, then the value it calls for. */
    method ParseField(cursor: Cursor, amountSeen: bool, addressSeen: bool)
      returns (sw: int, inner: Cursor, amountNow: bool, addressNow: bool)
      requires Valid()
      modifies this`amountSignificand, this`amountExponent, this`hasMemo, address, displayMemo
      ensures match ReadField(cursor)
              case Ok(f, next) =>
                && sw == 0 && inner == next && ValidField(f)
                && Holds(amountNow, addressNow) == Keep(old(Holds(amountSeen, addressSeen)), f)
                && amountNow == (amountSeen || f.AmountField?) && addressNow == (addressSeen || f.AddressField?)
              case Fail(e) => sw == e && sw != 0
    {
      hide ReadHead, Cursor.Behind, ReadStr, ReadAmount, ReadAddress, ReadMemo, FieldKindOf, Content, CString;
      amountNow, addressNow, inner := amountSeen, addressSeen, cursor;
      ghost var field := ReadField(cursor);
      if field.Ok? {
        FieldSound(cursor);
      }
      var name := ReadStr(inner, TEXT, FIELD_NAME_MAX);
      if name.None? {
        return ERROR_PLT_CBOR_ERROR, inner, amountNow, addressNow;
      }
      inner := name.value.next;
      var ok;
      match FieldKindOf(Content(name.value.value)) {
        case AmountKind =>
          ok, inner := ParseAmountValue(inner);
          if !ok {
            return ERROR_PLT_CBOR_ERROR, inner, amountNow, addressNow;
          }
          amountNow := true;
          if amountExponent < MIN_EXPONENT {
            return ERROR_PLT_UNSUPPORTED_DECIMALS, inner, amountNow, addressNow;
          }
        case AddressKind =>
          ok, inner := ParseAddressValue(inner);
          if !ok {
            return ERROR_PLT_CBOR_ERROR, inner, amountNow, addressNow;
          }
          addressNow := true;
        case MemoKind =>
          ok, inner := ParseMemoValue(inner);
          if !ok {
            return ERROR_PLT_UNSUPPORTED_MEMO, inner, amountNow, addressNow;
          }
        case UnknownField =>
          return ERROR_PLT_CBOR_ERROR, inner, amountNow, addressNow;
      }
      sw := 0;
    }

    /** The field loop of parse_plt_cbor; the order of the fields is the host's. */
    method ParseFields(cursor: Cursor) returns (sw: int, inner: Cursor, amountSeen: bool, addressSeen: bool)
      requires Valid()
      modifies this`amountSignificand, this`amountExponent, this`hasMemo, address, displayMemo
      ensures match ReadFields(cursor)
              case Ok(fs, next) =>
                && sw == 0 && inner == next && ValidFields(fs)
                && Holds(amountSeen, addressSeen) == KeepAll(NOTHING_KEPT, fs)
                && amountSeen == HasAmount(fs) && addressSeen == HasAddress(fs)
              case Fail(e) => sw == e && sw != 0
    {
      hide ReadField, CString, ValidField, PrintField;
      inner, sw := cursor, 0;
      hasMemo := false;
      amountSeen, addressSeen := false, false;
      ghost var whole, done := ReadFields(inner), [];
      assert whole.Ok? ==> [] + whole.value == whole.value;
      while !inner.AtEnd()
        invariant sw == 0
        invariant whole == match ReadFields(inner)
                           case Fail(e) => Fail(e)
                           case Ok(more, next) => Ok(done + more, next)
        invariant ValidFields(done) && Holds(amountSeen, addressSeen) == KeepAll(NOTHING_KEPT, done)
        invariant amountSeen == HasAmount(done) && addressSeen == HasAddress(done)
        decreases inner.remaining
      {
        ghost var field := ReadField(inner);
        if field.Ok? {
          FieldSound(inner);
          FieldsAppend(done, field.value);
        }
        sw, inner, amountSeen, addressSeen := ParseField(inner, amountSeen, addressSeen);
        if sw != 0 {
          return;
        }
        ghost var more := ReadFields(inner);
        if more.Ok? {
          assert done + ([field.value] + more.value) == (done + [field.value]) + more.value;
        }
        done := done + [field.value];
      }
      assert done + [] == done;
    }

    /** parse_plt_cbor: 0, or the status word to refuse with. */
    method ParsePltCbor(buffer: seq<byte>) returns (sw: int)
      requires Valid()
      modifies this, address, displayMemo
      ensures match ParsePlt(buffer)
              case Parsed(o) =>
                && sw == 0 && ValidOperation(o) && OpTypeOf(Content(o.name)) == Some(opType)
                && Holds(HasAmount(o.fields), HasAddress(o.fields)) == KeepAll(NOTHING_KEPT, o.fields)
              case Refused(e) => sw == e && sw != 0
    {
      hide ReadHead, Cursor.Behind, ReadStr, Content, OpTypeOf, ReadFields, KeepAll, Print, ParseContext.Holds;
      hide HasAmount, HasAddress, ValidFields, ValidStr;
      if ParsePlt(buffer).Parsed? {
        ParseIsSound(buffer);
      }
      var parser := Open(buffer);
      if parser.None? || !parser.value.IsDefinite(ARRAY) {
        return ERROR_PLT_CBOR_ERROR;
      }
      var it := parser.value;
      var entered := Enter(it);
      if entered.None? || entered.value.AtEnd() || !entered.value.IsDefinite(MAP) {
        return ERROR_PLT_CBOR_ERROR;
      }
      var arr := entered.value;
      entered := Enter(arr);
      if entered.None? {
        return ERROR_PLT_CBOR_ERROR;
      }
      var opMap := entered.value;
      var opName := ReadStr(opMap, TEXT, OP_NAME_MAX);
      if opName.None? {
        return ERROR_PLT_CBOR_ERROR;
      }
      opMap := opName.value.next;
      var named := OpTypeOf(Content(opName.value.value));
      if named.None? {
        return ERROR_PLT_CBOR_ERROR;
      }
      opType := named.value;
      if !opMap.IsDefinite(MAP) {
        return ERROR_PLT_CBOR_ERROR;
      }
      entered := Enter(opMap);
      if entered.None? {
        return ERROR_PLT_CBOR_ERROR;
      }
      var fieldsSw, inner, amountSeen, addressSeen := ParseFields(entered.value);
      if fieldsSw != 0 {
        return fieldsSw;
      }
      var left := Leave(opMap, inner);
      if left.None? {
        return ERROR_PLT_CBOR_ERROR;
      }
      opMap := left.value;
      if !opMap.AtEnd() {
        return ERROR_PLT_MULTI_OP;
      }
      left := Leave(arr, opMap);
      if left.None? {
        return ERROR_PLT_CBOR_ERROR;
      }
      arr := left.value;
      match opType {
        case Transfer =>
          if !amountSeen || !addressSeen { return ERROR_PLT_CBOR_ERROR; }
        case Mint | Burn =>
          if !amountSeen { return ERROR_PLT_CBOR_ERROR; }
        case AddAllowList | RemoveAllowList | AddDenyList | RemoveDenyList =>
          if !addressSeen { return ERROR_PLT_CBOR_ERROR; }
        case Pause | Unpause =>
      }
      if !arr.AtEnd() {
        return ERROR_PLT_MULTI_OP;
      }
      left := Leave(it, arr);
      if left.None? || left.value.rest != [] {
        return ERROR_PLT_CBOR_ERROR;
      }
      return 0;
    }
  }

  lemma {:induction false} FieldsAppend(fs: seq<Field>, f: Field)
    requires ValidFields(fs) && ValidField(f)
    ensures ValidFields(fs + [f])
    ensures forall k :: KeepAll(k, fs + [f]) == Keep(KeepAll(k, fs), f)
    ensures HasAmount(fs + [f]) == (HasAmount(fs) || f.AmountField?)
    ensures HasAddress(fs + [f]) == (HasAddress(fs) || f.AddressField?)
  {
    hide ValidField;
    if fs == [] {
      assert fs + [f] == [f] && [f][1..] == [];
    } else {
      assert (fs + [f])[1..] == fs[1..] + [f];
      FieldsAppend(fs[1..], f);
    }
  }

  lemma {:induction false} AddressDataAppend(es: seq<Entry>, e: Entry)
    ensures AddressData(es + [e])
         == if AddressData(es).Some? then AddressData(es) else if e.Data? then Some(Content(e.data)) else None
  {
    if es == [] {
      assert es + [e] == [e] && [e][1..] == [];
    } else {
      assert (es + [e])[1..] == es[1..] + [e];
      AddressDataAppend(es[1..], e);
    }
  }
}
