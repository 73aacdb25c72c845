/**
 The concrete syntax of a CIS-7 token operation as the device reads it, and its printer. A
 syntax tree records everything a host may choose without changing the meaning: argument
 widths, chunked strings, the order and repetition of fields.
 */
module PltGrammar {
  import opened Bytes
  import opened Cbor
  import opened Options

  const TAG_DECIMAL_FRACTION := 4
  const TAG_ENCODED_CBOR := 24
  const TAG_ACCOUNT_ADDRESS := 40307
  const TAG_COININFO := 40305
  const ADDRESS_KEY_INFO := 1
  const ADDRESS_KEY_DATA := 3
  const COININFO_KEY_TYPE := 1
  const CCD_COIN_TYPE := 919
  const OP_NAME_MAX := 15
  const FIELD_NAME_MAX := 16
  const EXPONENT_RAW_MAX := 127
  const MIN_EXPONENT := -18
  const ADDRESS_LENGTH := 32
  const MEMO_TEXT_MAX := 256

  datatype Chunk = Chunk(width: Width, content: seq<byte>)

  datatype Str = Whole(width: Width, content: seq<byte>) | Chunked(chunks: seq<Chunk>)

  datatype Exponent = Zero(width: Width) | Negative(width: Width, raw: nat)

  datatype Amount = Amount(tag: Width, list: Width, exponent: Exponent, sigWidth: Width, significand: nat)

  datatype CoinInfo = CoinInfo(tag: Width, mapping: Width, key: Width, value: Width)

  datatype Entry = Info(key: Width, coin: CoinInfo) | Data(key: Width, data: Str)

  datatype Address = Address(tag: Width, mapping: Width, entries: seq<Entry>)

  datatype Memo = Memo(tag: Width, envelope: Width, inner: Width, text: seq<byte>)

  datatype Field =
    | AmountField(name: Str, amount: Amount)
    | AddressField(name: Str, address: Address)
    | MemoField(name: Str, memo: Memo)

  datatype Operation = Operation(list: Width, mapping: Width, name: Str, fieldsWidth: Width, fields: seq<Field>)

  // ---- Strings ----

  predicate ValidChunks(chunks: seq<Chunk>) {
    chunks == [] || (chunks[0].width.Holds(|chunks[0].content|) && ValidChunks(chunks[1..]))
  }

  function PrintChunks(major: byte, chunks: seq<Chunk>): seq<byte>
    requires major in {BYTES, TEXT} && ValidChunks(chunks)
  {
    if chunks == [] then [BREAK]
    else WriteHead(major, |chunks[0].content|, chunks[0].width) + (chunks[0].content + PrintChunks(major, chunks[1..]))
  }

  function ChunkContent(chunks: seq<Chunk>): seq<byte> {
    if chunks == [] then [] else chunks[0].content + ChunkContent(chunks[1..])
  }

  predicate ValidStr(s: Str) {
    match s
    case Whole(width, content) => width.Holds(|content|)
    case Chunked(chunks) => ValidChunks(chunks)
  }

  function Content(s: Str): seq<byte> {
    match s
    case Whole(_, content) => content
    case Chunked(chunks) => ChunkContent(chunks)
  }

  function PrintStr(major: byte, s: Str): (p: seq<byte>)
    requires major in {BYTES, TEXT} && ValidStr(s)
    ensures |p| > 0
  {
    match s
    case Whole(width, content) => WriteHead(major, |content|, width) + content
    case Chunked(chunks) => [major * 32 + 31] + PrintChunks(major, chunks)
  }

  // ---- Values ----

  predicate ValidAmount(a: Amount) {
    && a.tag.Holds(TAG_DECIMAL_FRACTION) && a.list.Holds(2)
    && (match a.exponent
        case Zero(width) => width.Holds(0)
        case Negative(width, raw) => raw <= EXPONENT_RAW_MAX && width.Holds(raw))
    && a.sigWidth.Holds(a.significand)
  }

  function PrintExponent(e: Exponent): seq<byte>
    requires match e case Zero(width) => width.Holds(0) case Negative(width, raw) => width.Holds(raw)
  {
    match e
    case Zero(width) => WriteHead(UNSIGNED, 0, width)
    case Negative(width, raw) => WriteHead(NEGATIVE, raw, width)
  }

  function ExponentValue(e: Exponent): int {
    match e case Zero(_) => 0 case Negative(_, raw) => -1 - raw
  }

  function PrintAmount(a: Amount): seq<byte>
    requires ValidAmount(a)
  {
    WriteHead(TAG, TAG_DECIMAL_FRACTION, a.tag)
    + (WriteHead(ARRAY, 2, a.list) + (PrintExponent(a.exponent) + WriteHead(UNSIGNED, a.significand, a.sigWidth)))
  }

  predicate ValidCoinInfo(i: CoinInfo) {
    && i.tag.Holds(TAG_COININFO) && i.mapping.Holds(1) && i.key.Holds(COININFO_KEY_TYPE) && i.value.Holds(CCD_COIN_TYPE)
  }

  function PrintCoinInfo(i: CoinInfo): seq<byte>
    requires ValidCoinInfo(i)
  {
    WriteHead(TAG, TAG_COININFO, i.tag)
    + (WriteHead(MAP, 1, i.mapping)
       + (WriteHead(UNSIGNED, COININFO_KEY_TYPE, i.key) + WriteHead(UNSIGNED, CCD_COIN_TYPE, i.value)))
  }

  predicate ValidEntry(e: Entry) {
    match e
    case Info(key, coin) => key.Holds(ADDRESS_KEY_INFO) && ValidCoinInfo(coin)
    case Data(key, data) => key.Holds(ADDRESS_KEY_DATA) && ValidStr(data) && |Content(data)| == ADDRESS_LENGTH
  }

  function PrintEntry(e: Entry): seq<byte>
    requires ValidEntry(e)
  {
    match e
    case Info(key, coin) => WriteHead(UNSIGNED, ADDRESS_KEY_INFO, key) + PrintCoinInfo(coin)
    case Data(key, data) => WriteHead(UNSIGNED, ADDRESS_KEY_DATA, key) + PrintStr(BYTES, data)
  }

  predicate ValidEntries(es: seq<Entry>) {
    es == [] || (ValidEntry(es[0]) && ValidEntries(es[1..]))
  }

  function PrintEntries(es: seq<Entry>): seq<byte>
    requires ValidEntries(es)
  {
    if es == [] then [] else PrintEntry(es[0]) + PrintEntries(es[1..])
  }

  /** The entries hold no data item if one was seen before, and at most one otherwise. */
  predicate DataOnce(es: seq<Entry>, seen: bool) {
    es == [] || (if es[0].Data? then !seen && DataOnce(es[1..], true) else DataOnce(es[1..], seen))
  }

  /** The raw account address: the content of the data entry. */
  function AddressData(es: seq<Entry>): Option<seq<byte>> {
    if es == [] then None
    else if es[0].Data? then Some(Content(es[0].data))
    else AddressData(es[1..])
  }

  predicate ValidAddress(a: Address) {
    && a.tag.Holds(TAG_ACCOUNT_ADDRESS) && a.mapping.Holds(|a.entries|)
    && ValidEntries(a.entries)
    && DataOnce(a.entries, false) && AddressData(a.entries).Some?
  }

  function PrintAddress(a: Address): seq<byte>
    requires ValidAddress(a)
  {
    WriteHead(TAG, TAG_ACCOUNT_ADDRESS, a.tag) + (WriteHead(MAP, |a.entries|, a.mapping) + PrintEntries(a.entries))
  }

  function MemoItem(m: Memo): seq<byte>
    requires m.inner.Holds(|m.text|)
  {
    WriteHead(TEXT, |m.text|, m.inner) + m.text
  }

  predicate ValidMemo(m: Memo) {
    && m.tag.Holds(TAG_ENCODED_CBOR) && m.inner.Holds(|m.text|) && m.envelope.Holds(|MemoItem(m)|)
    && |m.text| <= MEMO_TEXT_MAX && DisplayableText(m.text)
  }

  function PrintMemo(m: Memo): seq<byte>
    requires ValidMemo(m)
  {
    WriteHead(TAG, TAG_ENCODED_CBOR, m.tag) + (WriteHead(BYTES, |MemoItem(m)|, m.envelope) + MemoItem(m))
  }

  // ---- Fields and operations ----

  // The names of CIS-7, as bytes.
  const NAME_AMOUNT: seq<byte> := [97, 109, 111, 117, 110, 116]  // amount
  const NAME_RECIPIENT: seq<byte> := [114, 101, 99, 105, 112, 105, 101, 110, 116]  // recipient
  const NAME_TARGET: seq<byte> := [116, 97, 114, 103, 101, 116]  // target
  const NAME_MEMO: seq<byte> := [109, 101, 109, 111]  // memo
  const NAME_TRANSFER: seq<byte> := [116, 114, 97, 110, 115, 102, 101, 114]  // transfer
  const NAME_MINT: seq<byte> := [109, 105, 110, 116]  // mint
  const NAME_BURN: seq<byte> := [98, 117, 114, 110]  // burn
  const NAME_ADD_ALLOW_LIST: seq<byte> := [97, 100, 100, 65, 108, 108, 111, 119, 76, 105, 115, 116]  // addAllowList
  const NAME_REMOVE_ALLOW_LIST: seq<byte> := [114, 101, 109, 111, 118, 101, 65, 108, 108, 111, 119, 76, 105, 115, 116]  // removeAllowList
  const NAME_ADD_DENY_LIST: seq<byte> := [97, 100, 100, 68, 101, 110, 121, 76, 105, 115, 116]  // addDenyList
  const NAME_REMOVE_DENY_LIST: seq<byte> := [114, 101, 109, 111, 118, 101, 68, 101, 110, 121, 76, 105, 115, 116]  // removeDenyList
  const NAME_PAUSE: seq<byte> := [112, 97, 117, 115, 101]  // pause
  const NAME_UNPAUSE: seq<byte> := [117, 110, 112, 97, 117, 115, 101]  // unpause

  datatype FieldKind = AmountKind | AddressKind | MemoKind | UnknownField

  /** strcmp against the known field names: only the bytes before a NUL count. */
  function FieldKindOf(content: seq<byte>): FieldKind {
    var name := CString(content);
    if name == NAME_AMOUNT then AmountKind
    else if name == NAME_RECIPIENT || name == NAME_TARGET then AddressKind
    else if name == NAME_MEMO then MemoKind
    else UnknownField
  }

  datatype OpType =
    | Transfer | Mint | Burn | AddAllowList | RemoveAllowList | AddDenyList | RemoveDenyList | Pause | Unpause

  function OpTypeOf(content: seq<byte>): Option<OpType> {
    var name := CString(content);
    if name == NAME_TRANSFER then Some(Transfer)
    else if name == NAME_MINT then Some(Mint)
    else if name == NAME_BURN then Some(Burn)
    else if name == NAME_ADD_ALLOW_LIST then Some(AddAllowList)
    else if name == NAME_REMOVE_ALLOW_LIST then Some(RemoveAllowList)
    else if name == NAME_ADD_DENY_LIST then Some(AddDenyList)
    else if name == NAME_REMOVE_DENY_LIST then Some(RemoveDenyList)
    else if name == NAME_PAUSE then Some(Pause)
    else if name == NAME_UNPAUSE then Some(Unpause)
    else None
  }

  predicate ValidName(s: Str, max: nat) {
    ValidStr(s) && |Content(s)| <= max
  }

  predicate ValidField(f: Field) {
    && ValidName(f.name, FIELD_NAME_MAX)
    && match f
       case AmountField(name, amount) =>
         && FieldKindOf(Content(name)) == AmountKind && ValidAmount(amount)
         && ExponentValue(amount.exponent) >= MIN_EXPONENT
       case AddressField(name, address) => FieldKindOf(Content(name)) == AddressKind && ValidAddress(address)
       case MemoField(name, memo) => FieldKindOf(Content(name)) == MemoKind && ValidMemo(memo)
  }

  function PrintValue(f: Field): seq<byte>
    requires ValidField(f)
  {
    match f
    case AmountField(_, amount) => PrintAmount(amount)
    case AddressField(_, address) => PrintAddress(address)
    case MemoField(_, memo) => PrintMemo(memo)
  }

  function PrintField(f: Field): seq<byte>
    requires ValidField(f)
  {
    PrintStr(TEXT, f.name) + PrintValue(f)
  }

  predicate ValidFields(fs: seq<Field>) {
    fs == [] || (ValidField(fs[0]) && ValidFields(fs[1..]))
  }

  function PrintFields(fs: seq<Field>): seq<byte>
    requires ValidFields(fs)
  {
    if fs == [] then [] else PrintField(fs[0]) + PrintFields(fs[1..])
  }

  predicate HasAmount(fs: seq<Field>) {
    fs != [] && (fs[0].AmountField? || HasAmount(fs[1..]))
  }

  predicate HasAddress(fs: seq<Field>) {
    fs != [] && (fs[0].AddressField? || HasAddress(fs[1..]))
  }

  predicate NeedsAmount(op: OpType) {
    op in {Transfer, Mint, Burn}
  }

  predicate NeedsAddress(op: OpType) {
    op in {Transfer, AddAllowList, RemoveAllowList, AddDenyList, RemoveDenyList}
  }

  predicate ValidOperation(o: Operation) {
    && o.list.Holds(1) && o.mapping.Holds(1) && o.fieldsWidth.Holds(|o.fields|)
    && ValidName(o.name, OP_NAME_MAX) && OpTypeOf(Content(o.name)).Some?
    && ValidFields(o.fields)
    && var op := OpTypeOf(Content(o.name)).value;
       && (NeedsAmount(op) ==> HasAmount(o.fields)) && (NeedsAddress(op) ==> HasAddress(o.fields))
  }

  /** The bytes of an operation: one array of one map of one name and its fields. */
  function Print(o: Operation): seq<byte>
    requires ValidOperation(o)
  {
    WriteHead(ARRAY, 1, o.list)
    + (WriteHead(MAP, 1, o.mapping)
       + (PrintStr(TEXT, o.name) + (WriteHead(MAP, |o.fields|, o.fieldsWidth) + PrintFields(o.fields))))
  }

  // ---- Meaning ----

  /** The fields the handler keeps; an absent one is None. */
  datatype Kept = Kept(amount: Option<(nat, int)>, address: Option<seq<byte>>, memo: Option<seq<byte>>)

  const NOTHING_KEPT := Kept(None, None, None)

  function Keep(k: Kept, f: Field): Kept {
    match f
    case AmountField(_, a) => k.(amount := Some((a.significand, ExponentValue(a.exponent))))
    case AddressField(_, a) => k.(address := AddressData(a.entries))
    case MemoField(_, m) => k.(memo := Some(m.text))
  }

  /** What is kept of a list of fields: the last occurrence of each. */
  function KeepAll(k: Kept, fs: seq<Field>): Kept
    requires ValidFields(fs)
    decreases |fs|
  {
    if fs == [] then k else KeepAll(Keep(k, fs[0]), fs[1..])
  }
}
