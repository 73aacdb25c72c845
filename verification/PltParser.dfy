/**
 parse_plt_cbor as a function from bytes to syntax trees or status words, and the theorem that
 it inverts the printer: a buffer is accepted exactly when it is the print of a valid tree.
 */
module PltParser {
  import opened Bytes
  import opened Cbor
  import opened Options
  import opened PltGrammar

  const ERROR_PLT_CBOR_ERROR := 0x6B0D
  const ERROR_PLT_MULTI_OP := 0x6B10
  const ERROR_PLT_UNSUPPORTED_DECIMALS := 0x6B11
  const ERROR_PLT_UNSUPPORTED_MEMO := 0x6B12

  /** A value read, and the cursor behind it. */
  datatype Read<T> = Read(value: T, next: Cursor)

  // ---- One initial byte, read and written ----

  lemma HeadSound(c: Cursor, major: byte)
    requires c.IsDefinite(major) && major < 7
    ensures c.Item().value.width.Holds(c.Argument())
    ensures c.rest == WriteHead(major, c.Argument(), c.Item().value.width) + c.Behind()
  {
    WriteAfterRead(c.rest);
  }

  lemma HeadComplete(major: byte, argument: nat, width: Width, tail: seq<byte>, n: nat)
    requires major < 7 && width.Holds(argument) && n > 0
    ensures var c := Cursor(WriteHead(major, argument, width) + tail, n);
      c.Item() == Some(Definite(major, argument, width)) && c.Behind() == tail && c.Argument() == argument
  {
    ReadAfterWrite(major, argument, width, tail);
  }

  lemma IndefiniteSound(c: Cursor, major: byte)
    requires c.Is(major) && c.Item().value.Indefinite?
    ensures c.rest != [] && c.rest[0] == major * 32 + 31
  {
  }

  lemma IndefiniteComplete(major: byte, tail: seq<byte>)
    requires major in {BYTES, TEXT}
    ensures ReadHead([major * 32 + 31] + tail) == Some(Indefinite(major))
  {
  }

  // ---- Strings ----

  function ReadChunks(rest: seq<byte>, major: byte): Option<(seq<Chunk>, seq<byte>)>
    decreases |rest|
  {
    if rest == [] then None
    else if rest[0] == BREAK then Some(([], rest[1..]))
    else
      var c := Cursor(rest, 1);
      if !c.IsDefinite(major) || major !in {BYTES, TEXT} || StringContent(c).None? then None
      else
        var more := ReadChunks(c.Behind()[c.Argument()..], major);
        if more.None? then None
        else Some(([Chunk(c.Item().value.width, StringContent(c).value)] + more.value.0, more.value.1))
  }

  lemma {:induction false} ChunksSound(rest: seq<byte>, major: byte)
    requires major in {BYTES, TEXT} && ReadChunks(rest, major).Some?
    ensures var r := ReadChunks(rest, major).value; ValidChunks(r.0) && rest == PrintChunks(major, r.0) + r.1
    decreases |rest|
  {
    hide WriteHead, ReadHead, Width.Holds, Cursor.Behind;
    if rest[0] != BREAK {
      var c := Cursor(rest, 1);
      HeadSound(c, major);
      var content, tail := StringContent(c).value, c.Behind()[c.Argument()..];
      ChunksSound(tail, major);
      var r := ReadChunks(rest, major).value;
      assert c.Behind() == content + tail;
      assert r.0[1..] == ReadChunks(tail, major).value.0;
    }
  }

  lemma {:induction false} ChunksComplete(chunks: seq<Chunk>, major: byte, tail: seq<byte>)
    requires major in {BYTES, TEXT} && ValidChunks(chunks)
    ensures ReadChunks(PrintChunks(major, chunks) + tail, major) == Some((chunks, tail))
    decreases |chunks|
  {
    hide WriteHead, ReadHead, Width.Holds, Cursor.Behind;
    var s := PrintChunks(major, chunks) + tail;
    if chunks != [] {
      var k := chunks[0];
      var behind := k.content + (PrintChunks(major, chunks[1..]) + tail);
      assert s == WriteHead(major, |k.content|, k.width) + behind;
      HeadComplete(major, |k.content|, k.width, behind, 1);
      assert behind[|k.content|..] == PrintChunks(major, chunks[1..]) + tail;
      ChunksComplete(chunks[1..], major, tail);
      assert [k] + chunks[1..] == chunks;
    }
  }

  /** cbor_value_copy_text_string and cbor_value_copy_byte_string into a buffer of `max` bytes. */
  function ReadStr(c: Cursor, major: byte, max: nat): Option<Read<Str>>
    requires major in {BYTES, TEXT}
  {
    if !c.Is(major) then None
    else if c.Item().value.Definite? then
      if StringContent(c).None? || c.Argument() > max || SkipString(c).None? then None
      else Some(Read(Whole(c.Item().value.width, StringContent(c).value), SkipString(c).value))
    else
      var r := ReadChunks(c.rest[1..], major);
      if r.None? || |ChunkContent(r.value.0)| > max then None
      else
        var next := Settle(r.value.1, c.remaining - 1);
        if next.None? then None else Some(Read(Chunked(r.value.0), next.value))
  }

  lemma StrSound(c: Cursor, major: byte, max: nat)
    requires major in {BYTES, TEXT} && ReadStr(c, major, max).Some?
    ensures var r := ReadStr(c, major, max).value;
      && ValidStr(r.value) && |Content(r.value)| <= max
      && c.rest == PrintStr(major, r.value) + r.next.rest && r.next.remaining == c.remaining - 1
  {
    hide WriteHead, ReadHead, Width.Holds, Cursor.Behind;
    if c.Item().value.Definite? {
      HeadSound(c, major);
      assert c.Behind() == StringContent(c).value + c.Behind()[c.Argument()..];
    } else {
      IndefiniteSound(c, major);
      ChunksSound(c.rest[1..], major);
      assert c.rest == [c.rest[0]] + c.rest[1..];
    }
  }

  lemma StrComplete(s: Str, major: byte, max: nat, tail: seq<byte>, n: nat)
    requires major in {BYTES, TEXT} && ValidStr(s) && |Content(s)| <= max && n > 0
    ensures ReadHead(PrintStr(major, s) + tail).Some?
    ensures ReadStr(Cursor(PrintStr(major, s) + tail, n), major, max) == AndThen(s, tail, n - 1)
  {
    hide WriteHead, ReadHead, Width.Holds, Cursor.Behind;
    match s
    case Whole(width, content) =>
      assert PrintStr(major, s) + tail == WriteHead(major, |content|, width) + (content + tail);
      HeadComplete(major, |content|, width, content + tail, n);
      assert (content + tail)[..|content|] == content && (content + tail)[|content|..] == tail;
    case Chunked(chunks) =>
      ChunksComplete(chunks, major, tail);
      IndefiniteComplete(major, PrintChunks(major, chunks) + tail);
      assert PrintStr(major, s) + tail == [major * 32 + 31] + (PrintChunks(major, chunks) + tail);
  }

  /** A value was read and the cursor has to land behind it. */
  function AndThen<T>(value: T, rest: seq<byte>, remaining: nat): Option<Read<T>> {
    var next := Settle(rest, remaining);
    if next.None? then None else Some(Read(value, next.value))
  }

  // ---- tag 4: amounts ----

  function ReadExponent(c: Cursor): Option<Read<Exponent>> {
    if c.IsDefinite(NEGATIVE) && c.Argument() <= EXPONENT_RAW_MAX then
      AndThen(Negative(c.Item().value.width, c.Argument()), c.Behind(), c.remaining - 1)
    else if c.IsDefinite(UNSIGNED) && c.Argument() == 0 then
      AndThen(Zero(c.Item().value.width), c.Behind(), c.remaining - 1)
    else None
  }

  function ReadAmount(c: Cursor): Option<Read<Amount>> {
    if !c.IsDefinite(TAG) || c.Argument() != TAG_DECIMAL_FRACTION then None else
    var it := SkipTag(c);
    if it.None? || !it.value.IsDefinite(ARRAY) then None else
    var arr := Enter(it.value);
    if arr.None? then None else
    var e := ReadExponent(arr.value);
    if e.None? || !e.value.next.IsDefinite(UNSIGNED) then None else
    var sig := e.value.next;
    var end := Advance(sig);
    if end.None? || !end.value.AtEnd() then None else
    var next := Leave(it.value, end.value);
    if next.None? then None else
    Some(Read(Amount(c.Item().value.width, it.value.Item().value.width, e.value.value,
                     sig.Item().value.width, sig.Argument()), next.value))
  }

  lemma ExponentSound(c: Cursor)
    requires ReadExponent(c).Some?
    ensures var r := ReadExponent(c).value;
      && (match r.value case Zero(w) => w.Holds(0) case Negative(w, raw) => raw <= EXPONENT_RAW_MAX && w.Holds(raw))
      && c.rest == PrintExponent(r.value) + r.next.rest && r.next.remaining == c.remaining - 1
  {
    hide WriteHead, ReadHead, Width.Holds, Cursor.Behind;
    if c.IsDefinite(NEGATIVE) {
      HeadSound(c, NEGATIVE);
    } else {
      HeadSound(c, UNSIGNED);
    }
  }

  lemma AmountSound(c: Cursor)
    requires ReadAmount(c).Some?
    ensures var r := ReadAmount(c).value;
      ValidAmount(r.value) && c.rest == PrintAmount(r.value) + r.next.rest && r.next.remaining == c.remaining - 1
  {
    hide WriteHead, ReadHead, Width.Holds, Cursor.Behind;
    HeadSound(c, TAG);
    var it := SkipTag(c).value;
    HeadSound(it, ARRAY);
    var arr := Enter(it).value;
    ExponentSound(arr);
    var sig := ReadExponent(arr).value.next;
    HeadSound(sig, UNSIGNED);
    var r := ReadAmount(c).value;
    var e := PrintExponent(r.value.exponent);
    var h3 := WriteHead(UNSIGNED, r.value.significand, r.value.sigWidth);
    assert arr.rest == (e + h3) + r.next.rest;
    assert it.rest == (WriteHead(ARRAY, 2, r.value.list) + (e + h3)) + r.next.rest;
  }

  lemma AmountComplete(a: Amount, tail: seq<byte>, n: nat)
    requires ValidAmount(a) && n > 0
    ensures ReadHead(PrintAmount(a) + tail).Some?
    ensures ReadAmount(Cursor(PrintAmount(a) + tail, n)) == AndThen(a, tail, n - 1)
  {
    hide WriteHead, ReadHead, Width.Holds, Cursor.Behind;
    var h3 := WriteHead(UNSIGNED, a.significand, a.sigWidth);
    var s3 := h3 + tail;
    var s2 := PrintExponent(a.exponent) + s3;
    var s1 := WriteHead(ARRAY, 2, a.list) + s2;
    assert PrintAmount(a) + tail == WriteHead(TAG, TAG_DECIMAL_FRACTION, a.tag) + s1;
    HeadComplete(TAG, TAG_DECIMAL_FRACTION, a.tag, s1, n);
    HeadComplete(ARRAY, 2, a.list, s2, n);
    match a.exponent {
      case Zero(width) => HeadComplete(UNSIGNED, 0, width, s3, 2);
      case Negative(width, raw) => HeadComplete(NEGATIVE, raw, width, s3, 2);
    }
    HeadComplete(UNSIGNED, a.significand, a.sigWidth, tail, 1);
  }

  // ---- tag 40305 and tag 40307: addresses ----

  function ReadCoinInfo(c: Cursor): Option<Read<CoinInfo>> {
    if !c.IsDefinite(TAG) || c.Argument() != TAG_COININFO then None else
    var it := SkipTag(c);
    if it.None? || !it.value.IsDefinite(MAP) then None else
    var info := Enter(it.value);
    if info.None? || !info.value.IsDefinite(UNSIGNED) || info.value.Argument() != COININFO_KEY_TYPE then None else
    var value := Advance(info.value);
    if value.None? || !value.value.IsDefinite(UNSIGNED) || value.value.Argument() != CCD_COIN_TYPE then None else
    var end := Advance(value.value);
    // A second entry repeats the only known key, or is unknown.
    if end.None? || !end.value.AtEnd() then None else
    var next := Leave(it.value, end.value);
    if next.None? then None else
    Some(Read(CoinInfo(c.Item().value.width, it.value.Item().value.width, info.value.Item().value.width,
                       value.value.Item().value.width), next.value))
  }

  lemma CoinInfoSound(c: Cursor)
    requires ReadCoinInfo(c).Some?
    ensures var r := ReadCoinInfo(c).value;
      ValidCoinInfo(r.value) && c.rest == PrintCoinInfo(r.value) + r.next.rest && r.next.remaining == c.remaining - 1
  {
    hide WriteHead, ReadHead, Width.Holds, Cursor.Behind;
    HeadSound(c, TAG);
    var it := SkipTag(c).value;
    HeadSound(it, MAP);
    var info := Enter(it).value;
    HeadSound(info, UNSIGNED);
    var value := Advance(info).value;
    HeadSound(value, UNSIGNED);
    var r := ReadCoinInfo(c).value;
    var h := WriteHead(UNSIGNED, 1, r.value.key) + WriteHead(UNSIGNED, 919, r.value.value);
    assert info.rest == h + r.next.rest;
    assert it.rest == (WriteHead(MAP, 1, r.value.mapping) + h) + r.next.rest;
  }

  lemma CoinInfoComplete(i: CoinInfo, tail: seq<byte>, n: nat)
    requires ValidCoinInfo(i) && n > 0
    ensures ReadHead(PrintCoinInfo(i) + tail).Some?
    ensures ReadCoinInfo(Cursor(PrintCoinInfo(i) + tail, n)) == AndThen(i, tail, n - 1)
  {
    hide WriteHead, ReadHead, Width.Holds, Cursor.Behind;
    var s3 := WriteHead(UNSIGNED, CCD_COIN_TYPE, i.value) + tail;
    var s2 := WriteHead(UNSIGNED, COININFO_KEY_TYPE, i.key) + s3;
    var s1 := WriteHead(MAP, 1, i.mapping) + s2;
    assert PrintCoinInfo(i) + tail == WriteHead(TAG, TAG_COININFO, i.tag) + s1;
    HeadComplete(TAG, TAG_COININFO, i.tag, s1, n);
    HeadComplete(MAP, 1, i.mapping, s2, n);
    HeadComplete(UNSIGNED, COININFO_KEY_TYPE, i.key, s3, 2);
    HeadComplete(UNSIGNED, CCD_COIN_TYPE, i.value, tail, 1);
  }

  /** One key and its value inside an address map. */
  function ReadEntry(c: Cursor): Option<Read<Entry>> {
    if !c.IsDefinite(UNSIGNED) then None else
    var v := Advance(c);
    if v.None? then None
    else if c.Argument() == ADDRESS_KEY_INFO then
      var r := ReadCoinInfo(v.value);
      if r.None? then None else Some(Read(Info(c.Item().value.width, r.value.value), r.value.next))
    else if c.Argument() == ADDRESS_KEY_DATA then
      var r := ReadStr(v.value, BYTES, ADDRESS_LENGTH);
      if r.None? || |Content(r.value.value)| != ADDRESS_LENGTH then None
      else Some(Read(Data(c.Item().value.width, r.value.value), r.value.next))
    else None
  }

  lemma EntrySound(c: Cursor)
    requires ReadEntry(c).Some?
    ensures var r := ReadEntry(c).value;
      && ValidEntry(r.value) && c.rest == PrintEntry(r.value) + r.next.rest
      && c.remaining >= 2 && r.next.remaining == c.remaining - 2
  {
    hide WriteHead, ReadHead, Width.Holds, Cursor.Behind;
    HeadSound(c, UNSIGNED);
    var v := Advance(c).value;
    if c.Argument() == ADDRESS_KEY_INFO {
      CoinInfoSound(v);
    } else {
      StrSound(v, BYTES, ADDRESS_LENGTH);
    }
  }

  lemma EntryComplete(e: Entry, tail: seq<byte>, n: nat)
    requires ValidEntry(e) && n >= 2
    ensures ReadHead(PrintEntry(e) + tail).Some?
    ensures ReadEntry(Cursor(PrintEntry(e) + tail, n)) == AndThen(e, tail, n - 2)
  {
    hide WriteHead, ReadHead, Width.Holds, Cursor.Behind;
    match e
    case Info(key, coin) =>
      assert PrintEntry(e) + tail == WriteHead(UNSIGNED, ADDRESS_KEY_INFO, key) + (PrintCoinInfo(coin) + tail);
      HeadComplete(UNSIGNED, ADDRESS_KEY_INFO, key, PrintCoinInfo(coin) + tail, n);
      CoinInfoComplete(coin, tail, n - 1);
    case Data(key, data) =>
      assert PrintEntry(e) + tail == WriteHead(UNSIGNED, ADDRESS_KEY_DATA, key) + (PrintStr(BYTES, data) + tail);
      HeadComplete(UNSIGNED, ADDRESS_KEY_DATA, key, PrintStr(BYTES, data) + tail, n);
      StrComplete(data, BYTES, ADDRESS_LENGTH, tail, n - 1);
  }

  function ReadEntries(c: Cursor, dataSeen: bool): Option<Read<seq<Entry>>>
    decreases c.remaining
  {
    if c.AtEnd() then Some(Read([], c))
    else
      var e := ReadEntry(c);
      if e.None? || (e.value.value.Data? && dataSeen) then None
      else
        EntrySound(c);
        var more := ReadEntries(e.value.next, dataSeen || e.value.value.Data?);
        if more.None? then None else Some(Read([e.value.value] + more.value.value, more.value.next))
  }

  lemma {:induction false} EntriesSound(c: Cursor, dataSeen: bool)
    requires ReadEntries(c, dataSeen).Some?
    ensures var r := ReadEntries(c, dataSeen).value;
      && ValidEntries(r.value) && DataOnce(r.value, dataSeen) && c.rest == PrintEntries(r.value) + r.next.rest
      && r.next.AtEnd() && c.remaining == 2 * |r.value|
    decreases c.remaining
  {
    hide ReadHead, ValidEntry, ReadEntry, PrintEntry;
    if !c.AtEnd() {
      EntrySound(c);
      var e := ReadEntry(c).value;
      EntriesSound(e.next, dataSeen || e.value.Data?);
      var r := ReadEntries(c, dataSeen).value;
      assert r.value[1..] == ReadEntries(e.next, dataSeen || e.value.Data?).value.value;
    }
  }

  lemma {:induction false} EntriesComplete(es: seq<Entry>, tail: seq<byte>, dataSeen: bool)
    requires ValidEntries(es) && DataOnce(es, dataSeen)
    ensures es != [] ==> ReadHead(PrintEntries(es) + tail).Some?
    ensures ReadEntries(Cursor(PrintEntries(es) + tail, 2 * |es|), dataSeen) == Some(Read(es, Cursor(tail, 0)))
    decreases |es|
  {
    hide ReadHead, ValidEntry, ReadEntry, PrintEntry;
    if es == [] {
      assert PrintEntries(es) + tail == tail;
    } else {
      var rest := PrintEntries(es[1..]) + tail;
      assert PrintEntries(es) + tail == PrintEntry(es[0]) + rest;
      EntriesComplete(es[1..], tail, dataSeen || es[0].Data?);
      EntryComplete(es[0], rest, 2 * |es|);
      assert [es[0]] + es[1..] == es;
    }
  }

  function ReadAddress(c: Cursor): Option<Read<Address>> {
    if !c.IsDefinite(TAG) || c.Argument() != TAG_ACCOUNT_ADDRESS then None else
    var it := SkipTag(c);
    if it.None? || !it.value.IsDefinite(MAP) then None else
    var addr := Enter(it.value);
    if addr.None? then None else
    var es := ReadEntries(addr.value, false);
    if es.None? then None else
    var next := Leave(it.value, es.value.next);
    if next.None? || AddressData(es.value.value).None? then None else
    Some(Read(Address(c.Item().value.width, it.value.Item().value.width, es.value.value), next.value))
  }

  lemma AddressSound(c: Cursor)
    requires ReadAddress(c).Some?
    ensures var r := ReadAddress(c).value;
      ValidAddress(r.value) && c.rest == PrintAddress(r.value) + r.next.rest && r.next.remaining == c.remaining - 1
  {
    hide WriteHead, ReadHead, Width.Holds, Cursor.Behind, ReadEntries, PrintEntries;
    HeadSound(c, TAG);
    var it := SkipTag(c).value;
    HeadSound(it, MAP);
    var addr := Enter(it).value;
    EntriesSound(addr, false);
    var r := ReadAddress(c).value;
    assert it.rest == (WriteHead(MAP, |r.value.entries|, r.value.mapping) + PrintEntries(r.value.entries)) + r.next.rest;
  }

  lemma AddressComplete(a: Address, tail: seq<byte>, n: nat)
    requires ValidAddress(a) && n > 0
    ensures ReadHead(PrintAddress(a) + tail).Some?
    ensures ReadAddress(Cursor(PrintAddress(a) + tail, n)) == AndThen(a, tail, n - 1)
  {
    hide WriteHead, ReadHead, Width.Holds, Cursor.Behind;
    var s2 := PrintEntries(a.entries) + tail;
    var s1 := WriteHead(MAP, |a.entries|, a.mapping) + s2;
    assert PrintAddress(a) + tail == WriteHead(TAG, TAG_ACCOUNT_ADDRESS, a.tag) + s1;
    HeadComplete(TAG, TAG_ACCOUNT_ADDRESS, a.tag, s1, n);
    HeadComplete(MAP, |a.entries|, a.mapping, s2, n);
    EntriesComplete(a.entries, tail, false);
  }

  // ---- tag 24: memos ----

  /** decode_memo_cbor: the envelope must hold one definite text string and nothing else. */
  function DecodeMemo(envelope: seq<byte>): Option<(Width, seq<byte>)> {
    var value := Open(envelope);
    if value.None? || !value.value.IsDefinite(TEXT) || value.value.Argument() != |value.value.Behind()| then None
    else if |value.value.Behind()| > MEMO_TEXT_MAX || !DisplayableText(value.value.Behind()) then None
    else Some((value.value.Item().value.width, value.value.Behind()))
  }

  function ReadMemo(c: Cursor): Option<Read<Memo>> {
    if !c.IsDefinite(TAG) || c.Argument() != TAG_ENCODED_CBOR then None else
    var it := SkipTag(c);
    if it.None? || !it.value.IsDefinite(BYTES) || StringContent(it.value).None? then None else
    var inner := DecodeMemo(StringContent(it.value).value);
    var next := SkipString(it.value);
    if inner.None? || next.None? then None else
    Some(Read(Memo(c.Item().value.width, it.value.Item().value.width, inner.value.0, inner.value.1), next.value))
  }

  lemma MemoSound(c: Cursor)
    requires ReadMemo(c).Some?
    ensures var r := ReadMemo(c).value;
      ValidMemo(r.value) && c.rest == PrintMemo(r.value) + r.next.rest && r.next.remaining == c.remaining - 1
  {
    hide WriteHead, ReadHead, Width.Holds, Cursor.Behind;
    HeadSound(c, TAG);
    var it := SkipTag(c).value;
    HeadSound(it, BYTES);
    var envelope := StringContent(it).value;
    HeadSound(Open(envelope).value, TEXT);
    var r := ReadMemo(c).value;
    assert it.Behind() == MemoItem(r.value) + r.next.rest;
    assert it.rest == (WriteHead(BYTES, |MemoItem(r.value)|, r.value.envelope) + MemoItem(r.value)) + r.next.rest;
  }

  lemma MemoComplete(m: Memo, tail: seq<byte>, n: nat)
    requires ValidMemo(m) && n > 0
    ensures ReadHead(PrintMemo(m) + tail).Some?
    ensures ReadMemo(Cursor(PrintMemo(m) + tail, n)) == AndThen(m, tail, n - 1)
  {
    hide WriteHead, ReadHead, Width.Holds, Cursor.Behind;
    var item := MemoItem(m);
    var s2 := item + tail;
    var s1 := WriteHead(BYTES, |item|, m.envelope) + s2;
    assert PrintMemo(m) + tail == WriteHead(TAG, TAG_ENCODED_CBOR, m.tag) + s1;
    HeadComplete(TAG, TAG_ENCODED_CBOR, m.tag, s1, n);
    HeadComplete(BYTES, |item|, m.envelope, s2, n);
    assert s2[..|item|] == item && s2[|item|..] == tail;
    HeadComplete(TEXT, |m.text|, m.inner, m.text, 1);
  }

  // ---- The fields map ----

  datatype Result<T> = Ok(value: T, next: Cursor) | Fail(sw: int)

  /** One field of an operation: its name, then the value the name calls for. */
  function ReadField(c: Cursor): Result<Field> {
    var name := ReadStr(c, TEXT, FIELD_NAME_MAX);
    if name.None? then Fail(ERROR_PLT_CBOR_ERROR) else
    var v := name.value.next;
    match FieldKindOf(Content(name.value.value))
    case AmountKind =>
      var r := ReadAmount(v);
      if r.None? then Fail(ERROR_PLT_CBOR_ERROR)
      else if ExponentValue(r.value.value.exponent) < MIN_EXPONENT then Fail(ERROR_PLT_UNSUPPORTED_DECIMALS)
      else Ok(AmountField(name.value.value, r.value.value), r.value.next)
    case AddressKind =>
      var r := ReadAddress(v);
      if r.None? then Fail(ERROR_PLT_CBOR_ERROR) else Ok(AddressField(name.value.value, r.value.value), r.value.next)
    case MemoKind =>
      var r := ReadMemo(v);
      if r.None? then Fail(ERROR_PLT_UNSUPPORTED_MEMO) else Ok(MemoField(name.value.value, r.value.value), r.value.next)
    case UnknownField => Fail(ERROR_PLT_CBOR_ERROR)
  }

  lemma FieldSound(c: Cursor)
    requires ReadField(c).Ok?
    ensures var r := ReadField(c);
      && ValidField(r.value) && c.rest == PrintField(r.value) + r.next.rest
      && c.remaining >= 2 && r.next.remaining == c.remaining - 2
  {
    hide ReadHead, FieldKindOf, ReadStr, ReadAmount, ReadAddress, ReadMemo, ValidStr, Content;
    hide ValidAmount, ValidAddress, ValidMemo, PrintStr, PrintAmount, PrintAddress, PrintMemo;
    StrSound(c, TEXT, FIELD_NAME_MAX);
    var name := ReadStr(c, TEXT, FIELD_NAME_MAX).value;
    match FieldKindOf(Content(name.value))
    case AmountKind => AmountSound(name.next);
    case AddressKind => AddressSound(name.next);
    case MemoKind => MemoSound(name.next);
    case UnknownField =>
  }

  lemma FieldComplete(f: Field, tail: seq<byte>, n: nat)
    requires ValidField(f) && n >= 2 && (n == 2 || ReadHead(tail).Some?)
    ensures ReadHead(PrintField(f) + tail).Some?
    ensures ReadField(Cursor(PrintField(f) + tail, n)) == Ok(f, Cursor(tail, n - 2))
  {
    hide ReadHead, FieldKindOf, ReadStr, ReadAmount, ReadAddress, ReadMemo, ValidStr, Content;
    hide ValidAmount, ValidAddress, ValidMemo, PrintStr, PrintAmount, PrintAddress, PrintMemo;
    match f {
      case AmountField(_, a) => AmountComplete(a, tail, n - 1);
      case AddressField(_, a) => AddressComplete(a, tail, n - 1);
      case MemoField(_, m) => MemoComplete(m, tail, n - 1);
    }
    StrComplete(f.name, TEXT, FIELD_NAME_MAX, PrintValue(f) + tail, n);
    assert PrintField(f) + tail == PrintStr(TEXT, f.name) + (PrintValue(f) + tail);
  }

  function ReadFields(c: Cursor): Result<seq<Field>>
    decreases c.remaining
  {
    if c.AtEnd() then Ok([], c)
    else
      var f := ReadField(c);
      if f.Fail? then Fail(f.sw)
      else
        FieldSound(c);
        var more := ReadFields(f.next);
        if more.Fail? then more else Ok([f.value] + more.value, more.next)
  }

  lemma {:induction false} FieldsSound(c: Cursor)
    requires ReadFields(c).Ok?
    ensures var r := ReadFields(c);
      && ValidFields(r.value) && c.rest == PrintFields(r.value) + r.next.rest
      && r.next.AtEnd() && c.remaining == 2 * |r.value|
    decreases c.remaining
  {
    hide ReadHead, ValidField, ReadField, PrintField;
    if !c.AtEnd() {
      FieldSound(c);
      var f := ReadField(c);
      FieldsSound(f.next);
      var r := ReadFields(c);
      assert r.value[1..] == ReadFields(f.next).value;
    }
  }

  lemma {:induction false} FieldsComplete(fs: seq<Field>, tail: seq<byte>)
    requires ValidFields(fs)
    ensures fs != [] ==> ReadHead(PrintFields(fs) + tail).Some?
    ensures ReadFields(Cursor(PrintFields(fs) + tail, 2 * |fs|)) == Ok(fs, Cursor(tail, 0))
    decreases |fs|
  {
    hide ReadHead, ValidField, ReadField, PrintField;
    if fs == [] {
      assert PrintFields(fs) + tail == tail;
    } else {
      var rest := PrintFields(fs[1..]) + tail;
      assert PrintFields(fs) + tail == PrintField(fs[0]) + rest;
      FieldsComplete(fs[1..], tail);
      FieldComplete(fs[0], rest, 2 * |fs|);
      assert [fs[0]] + fs[1..] == fs;
    }
  }

  // ---- The whole payload ----

  datatype Outcome = Parsed(operation: Operation) | Refused(sw: int)

  function ParsePlt(buffer: seq<byte>): Outcome {
    var it := Open(buffer);
    if it.None? || !it.value.IsDefinite(ARRAY) then Refused(ERROR_PLT_CBOR_ERROR) else
    var arr := Enter(it.value);
    if arr.None? || !arr.value.IsDefinite(MAP) then Refused(ERROR_PLT_CBOR_ERROR) else
    var opMap := Enter(arr.value);
    if opMap.None? then Refused(ERROR_PLT_CBOR_ERROR) else
    var name := ReadStr(opMap.value, TEXT, OP_NAME_MAX);
    if name.None? || OpTypeOf(Content(name.value.value)).None? then Refused(ERROR_PLT_CBOR_ERROR) else
    var op := OpTypeOf(Content(name.value.value)).value;
    var fieldsMap := name.value.next;
    if !fieldsMap.IsDefinite(MAP) then Refused(ERROR_PLT_CBOR_ERROR) else
    var inner := Enter(fieldsMap);
    if inner.None? then Refused(ERROR_PLT_CBOR_ERROR) else
    var fs := ReadFields(inner.value);
    if fs.Fail? then Refused(fs.sw) else
    var afterFields := Leave(fieldsMap, fs.next);
    if afterFields.None? then Refused(ERROR_PLT_CBOR_ERROR)
    else if !afterFields.value.AtEnd() then Refused(ERROR_PLT_MULTI_OP) else
    var afterMap := Leave(arr.value, afterFields.value);
    if afterMap.None? then Refused(ERROR_PLT_CBOR_ERROR)
    else if (NeedsAmount(op) && !HasAmount(fs.value)) || (NeedsAddress(op) && !HasAddress(fs.value)) then
      Refused(ERROR_PLT_CBOR_ERROR)
    else if !afterMap.value.AtEnd() then Refused(ERROR_PLT_MULTI_OP)
    else if afterMap.value.rest != [] then Refused(ERROR_PLT_CBOR_ERROR)
    else Parsed(Operation(it.value.Item().value.width, arr.value.Item().value.width, name.value.value,
                          fieldsMap.Item().value.width, fs.value))
  }

  /** Soundness: an accepted buffer is the print of the tree it was read as, to the last byte. */
  lemma ParseIsSound(buffer: seq<byte>)
    requires ParsePlt(buffer).Parsed?
    ensures ValidOperation(ParsePlt(buffer).operation) && Print(ParsePlt(buffer).operation) == buffer
  {
    hide WriteHead, ReadHead, Width.Holds, Cursor.Behind, ReadStr, PrintStr, ReadFields, PrintFields, OpTypeOf;
    var o := ParsePlt(buffer).operation;
    var it := Open(buffer).value;
    HeadSound(it, ARRAY);
    var arr := Enter(it).value;
    HeadSound(arr, MAP);
    var opMap := Enter(arr).value;
    StrSound(opMap, TEXT, OP_NAME_MAX);
    var fieldsMap := ReadStr(opMap, TEXT, OP_NAME_MAX).value.next;
    HeadSound(fieldsMap, MAP);
    FieldsSound(Enter(fieldsMap).value);
    assert PrintFields(o.fields) + [] == PrintFields(o.fields);
  }

  /** Completeness: the print of a valid tree is accepted, and read back as that tree. */
  lemma ParseIsComplete(o: Operation)
    requires ValidOperation(o)
    ensures ParsePlt(Print(o)) == Parsed(o)
  {
    hide WriteHead, ReadHead, Width.Holds, Cursor.Behind, ReadStr, PrintStr, ReadFields, PrintFields, OpTypeOf;
    var s4 := PrintFields(o.fields) + [];
    var s3 := WriteHead(MAP, |o.fields|, o.fieldsWidth) + s4;
    var s2 := PrintStr(TEXT, o.name) + s3;
    var s1 := WriteHead(MAP, 1, o.mapping) + s2;
    assert Print(o) == WriteHead(ARRAY, 1, o.list) + s1;
    HeadComplete(ARRAY, 1, o.list, s1, 1);
    HeadComplete(MAP, 1, o.mapping, s2, 1);
    HeadComplete(MAP, |o.fields|, o.fieldsWidth, s4, 1);
    StrComplete(o.name, TEXT, OP_NAME_MAX, s3, 2);
    FieldsComplete(o.fields, []);
  }

  /** A buffer is accepted as `o` exactly when it is what `o` prints to. */
  lemma ParseInvertsPrint(buffer: seq<byte>, o: Operation)
    ensures ParsePlt(buffer) == Parsed(o) <==> ValidOperation(o) && Print(o) == buffer
  {
    hide WriteHead, ReadHead, Width.Holds, Cursor.Behind;
    if ParsePlt(buffer) == Parsed(o) {
      ParseIsSound(buffer);
    }
    if ValidOperation(o) && Print(o) == buffer {
      ParseIsComplete(o);
    }
  }

  /** Different trees are different signed bytes. */
  lemma PrintInjective(a: Operation, b: Operation)
    requires ValidOperation(a) && ValidOperation(b) && Print(a) == Print(b)
    ensures a == b
  {
    hide WriteHead, ReadHead, Width.Holds, Cursor.Behind;
    ParseIsComplete(a);
    ParseIsComplete(b);
  }
}
