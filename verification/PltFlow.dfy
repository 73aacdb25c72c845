/** src/handler/sign_plt.c lines 600 to 762: INIT, then the payload in any number of CONT packets. */
module PltFlow {
  import opened Bytes
  import opened Cbor
  import opened DerivationPath
  import opened Options
  import opened PltGrammar
  import opened PltHandler
  import opened PltParser
  import opened Status
  import opened TxHash

  const PLT_KIND: byte := 27
  const ERROR_PLT_BUFFER_ERROR := 0x6B0E
  const ERROR_PLT_DATA_ERROR := 0x6B0F
  const FEE_OMITTED := UINT64_MAX

  /** The rows of the review that come from the payload. */
  datatype Review = Review(op: OpType, amount: Option<(nat, int)>, account: Option<seq<byte>>, memo: Option<seq<byte>>)

  /** What startPltDisplay draws for an operation. */
  function ReviewOf(o: Operation): Review
    requires ValidOperation(o)
  {
    Rows(OpTypeOf(Content(o.name)).value, KeepAll(NOTHING_KEPT, o.fields))
  }

  function Rows(op: OpType, kept: Kept): Review {
    Review(op,
           if NeedsAmount(op) then kept.amount else None,
           if NeedsAddress(op) then kept.address else None,
           if op.Transfer? then kept.memo else None)
  }

  /** ctx->state; a wiped context holds neither value of the enumeration. */
  datatype Stage = Wiped | Initial | Collecting

  datatype State = State(stage: Stage, header: seq<byte>, tokenId: seq<byte>, total: nat, received: seq<byte>,
                         fee: Option<nat>, path: Path, hash: seq<byte>, review: Option<Review>)

  /** The transaction hash input up to the payload. */
  function Prefix(header: seq<byte>, tokenId: seq<byte>, total: nat): seq<byte>
    requires |tokenId| <= UINT8_MAX
  {
    header + [|tokenId|] + tokenId + ToBe(total, 4)
  }

  /** What INIT says behind the header: the token, the payload length and perhaps a fee estimate. */
  datatype Tail = Tail(tokenId: seq<byte>, total: nat, fee: Option<nat>) | BadTail(sw: int)

  function ReadTail(rest: seq<byte>, p2: uint8): Tail {
    if |rest| < 1 || rest[0] < 1 || rest[0] > PLT_TOKEN_ID_MAX || |rest| < 1 + rest[0] + 4
       || !DisplayableText(rest[1..1 + rest[0]])
    then BadTail(ERROR_PLT_DATA_ERROR)
    else
      var tokenId, tail := rest[1..1 + rest[0]], rest[1 + rest[0]..];
      var total := FromBe(tail[..4]);
      if total == 0 || total > APP_PLT_CBOR_MAX then BadTail(ERROR_PLT_BUFFER_ERROR)
      else if |tail| != 4 + (if p2 == 1 then 8 else 0) then BadTail(SWO_INCORRECT_DATA)
      else
        Tail(tokenId, total,
             if p2 == 1 && FromBe(tail[4..]) != FEE_OMITTED then Some(FromBe(tail[4..])) else None)
  }

  function Init(s: State, p2: uint8, cdata: seq<byte>): (State, Reply) {
    if !s.stage.Initial? then (s, Refuse(ERROR_INVALID_STATE))
    else if p2 > 1 then (s, Refuse(SWO_WRONG_P1_P2))
    else
      match StartTransaction(cdata, PLT_KIND)
      case StartThrown(sw) => (s, Throw(sw))
      case Started(path, header, rest) =>
        match ReadTail(rest, p2)
        case BadTail(sw) => (s, Refuse(sw))
        case Tail(tokenId, total, fee) =>
          (State(Collecting, header, tokenId, total, [], fee, path, Prefix(header, tokenId, total), None), Ack)
  }

  function Cont(s: State, p2: uint8, cdata: seq<byte>): (State, Reply) {
    if !s.stage.Collecting? then (s, Refuse(ERROR_INVALID_STATE))
    else if p2 != 0 then (s, Refuse(SWO_WRONG_P1_P2))
    else if cdata == [] || |cdata| > s.total - |s.received| then (s, Refuse(ERROR_PLT_CBOR_ERROR))
    else
      var s' := s.(received := s.received + cdata, hash := s.hash + cdata);
      if |s'.received| < s.total then (s', Ack)
      else
        match ParsePlt(s'.received)
        case Refused(sw) => (s', Refuse(sw))
        case Parsed(o) =>
          ParseIsSound(s'.received);
          (s'.(review := Some(ReviewOf(o))), Sign)
  }

  function Step(s: State, p1: uint8, p2: uint8, cdata: seq<byte>): (State, Reply) {
    if p1 == 0 then Init(s, p2, cdata)
    else if p1 == 1 then Cont(s, p2, cdata)
    else (s, Refuse(ERROR_INVALID_PARAM))
  }

  // ---- Whole runs ----

  /** What holds between the packets of a live flow. */
  predicate Inv(s: State) {
    s.stage.Collecting? ==>
      && 1 <= |s.tokenId| <= 128 && DisplayableText(s.tokenId)
      && |s.header| == 61 && s.header[60] == 27
      && 1 <= s.total <= 512 && |s.received| <= s.total
      && s.hash == Prefix(s.header, s.tokenId, s.total) + s.received
  }

  /** The review is of an operation whose print is the payload. */
  predicate SignedAsReceived(payload: seq<byte>, review: Review) {
    && ParsePlt(payload).Parsed? && ValidOperation(ParsePlt(payload).operation)
    && Print(ParsePlt(payload).operation) == payload && review == ReviewOf(ParsePlt(payload).operation)
  }

  /** A review is only ever of the whole payload, and what is signed is the header, the token and that payload. */
  lemma StepKeepsInv(s: State, p1: uint8, p2: uint8, cdata: seq<byte>)
    requires Inv(s)
    ensures var (s', reply) := Step(s, p1, p2, cdata);
      && (reply.Open() ==> Inv(s') && s'.stage.Collecting?)
      && (reply.Sign? ==>
            |s'.received| == s'.total && s'.review.Some? && SignedAsReceived(s'.received, s'.review.value))
      && (reply.Ack? ==> s'.review == if p1 == 0 then None else s.review)
      && !reply.Continue?
  {
    hide ParsePlt, ValidOperation, ReviewOf, FromBe, ToBe, Print;
    if p1 == 1 && Step(s, p1, p2, cdata).1.Open() {
      assert s.hash + cdata == Prefix(s.header, s.tokenId, s.total) + (s.received + cdata);
      if |s.received + cdata| == s.total {
        ParseIsSound(s.received + cdata);
      }
    }
  }

  datatype Packet = Packet(p1: uint8, p2: uint8, cdata: seq<byte>)

  const FRESH := State(Initial, [], [], 0, [], None, Path([], Invalid), [], None)

  /** Where the packets of one flow lead, if every one is accepted and none follows the review. */
  function Run(packets: seq<Packet>): Option<State> {
    if packets == [] then Some(FRESH)
    else
      match Run(packets[..|packets| - 1])
      case None => None
      case Some(s) =>
        var p := packets[|packets| - 1];
        var (t, reply) := Step(s, p.p1, p.p2, p.cdata);
        if s.review.None? && reply.Open() then Some(t) else None
  }

  /**
   In every run, the hash covers the header, the token and the payload received so far, and a
   review is of an operation whose print is the whole of the declared payload.
   */
  lemma {:induction false} RunsKeepInv(packets: seq<Packet>)
    requires Run(packets).Some?
    ensures var s := Run(packets).value;
      Inv(s) && (s.review.Some? ==> |s.received| == s.total && SignedAsReceived(s.received, s.review.value))
  {
    hide Step, Inv, SignedAsReceived;
    if packets == [] {
      assert Inv(FRESH) by { FreshInv(); }
    } else {
      var p := packets[|packets| - 1];
      RunsKeepInv(packets[..|packets| - 1]);
      StepKeepsInv(Run(packets[..|packets| - 1]).value, p.p1, p.p2, p.cdata);
    }
  }

  lemma FreshInv()
    ensures Inv(FRESH)
  {
  }

  /** The CONT packets of a flow, up to the first reply that is not a plain success. */
  function Feed(s: State, chunks: seq<seq<byte>>): (State, Reply)
    requires chunks != []
    decreases |chunks|
  {
    var r := Cont(s, 0, chunks[0]);
    if |chunks| == 1 || !r.1.Ack? then r else Feed(r.0, chunks[1..])
  }

  predicate Chunks(chunks: seq<seq<byte>>) {
    forall i :: 0 <= i < |chunks| ==> 1 <= |chunks[i]| <= UINT8_MAX
  }

  /** However the payload is split into packets, the last one is answered as if it had come in one piece. */
  lemma {:induction false} SplitDoesNotMatter(s: State, chunks: seq<seq<byte>>)
    requires s.stage.Collecting? && chunks != [] && Chunks(chunks)
    requires |s.received + Flatten(chunks)| == s.total
    ensures var body := s.received + Flatten(chunks);
            var (s', reply) := Feed(s, chunks);
      && s'.received == body && s'.hash == s.hash + Flatten(chunks)
      && match ParsePlt(body)
         case Refused(sw) => reply == Refuse(sw)
         case Parsed(o) => reply == Sign && ValidOperation(o) && s'.review == Some(ReviewOf(o))
    decreases |chunks|
  {
    var body := s.received + Flatten(chunks);
    if ParsePlt(body).Parsed? {
      ParseIsSound(body);
    }
    if |chunks| == 1 {
      assert chunks[1..] == [] && Flatten(chunks) == chunks[0];
    } else {
      var next := Cont(s, 0, chunks[0]).0;
      FlattenIsLong(chunks[1..]);
      assert next.received + Flatten(chunks[1..]) == body;
      SplitDoesNotMatter(next, chunks[1..]);
    }
  }

  lemma {:induction false} FlattenIsLong(chunks: seq<seq<byte>>)
    requires Chunks(chunks)
    ensures |Flatten(chunks)| >= |chunks|
  {
    if chunks != [] {
      FlattenIsLong(chunks[1..]);
    }
  }

  // ---- The encoding a wallet sends ----

  /** An operation as CIS-7 describes it. */
  datatype TokenOperation =
    TokenOperation(op: OpType, amount: Option<(nat, int)>, account: Option<seq<byte>>, memo: Option<seq<byte>>)

  /** The operation has the fields its kind needs and no others. */
  predicate ValidToken(t: TokenOperation) {
    && (t.amount.Some? <==> t.op in {Transfer, Mint, Burn})
    && (t.account.Some? <==> t.op in {Transfer, AddAllowList, RemoveAllowList, AddDenyList, RemoveDenyList})
    && (t.memo.Some? ==> t.op.Transfer?)
    && (t.amount.Some? ==> 0 <= t.amount.value.0 <= UINT64_MAX && -18 <= t.amount.value.1 <= 0)
    && (t.account.Some? ==> |t.account.value| == 32)
    && (t.memo.Some? ==> |t.memo.value| <= 256 && DisplayableText(t.memo.value))
  }

  predicate Present(t: TokenOperation, kind: FieldKind) {
    match kind
    case AmountKind => t.amount.Some?
    case AddressKind => t.account.Some?
    case MemoKind => t.memo.Some?
    case UnknownField => false
  }

  function NameOf(op: OpType): seq<byte> {
    match op
    case Transfer => NAME_TRANSFER
    case Mint => NAME_MINT
    case Burn => NAME_BURN
    case AddAllowList => NAME_ADD_ALLOW_LIST
    case RemoveAllowList => NAME_REMOVE_ALLOW_LIST
    case AddDenyList => NAME_ADD_DENY_LIST
    case RemoveDenyList => NAME_REMOVE_DENY_LIST
    case Pause => NAME_PAUSE
    case Unpause => NAME_UNPAUSE
  }

  function Name(text: seq<byte>): Str
    requires |text| <= UINT64_MAX
  {
    Whole(Shortest(|text|), text)
  }

  function EncodeExponent(exponent: int): Exponent
    requires MIN_EXPONENT <= exponent <= 0
  {
    if exponent == 0 then Zero(Inline) else Negative(Inline, -1 - exponent)
  }

  function EncodeAddress(account: seq<byte>, withInfo: bool): Address
    requires |account| == ADDRESS_LENGTH
  {
    var data := Data(Inline, Name(account));
    Address(Two, Inline, if withInfo then [Info(Inline, CoinInfo(Two, Inline, Inline, Two)), data] else [data])
  }

  function EncodeMemo(text: seq<byte>): Memo
    requires |text| <= MEMO_TEXT_MAX
  {
    var inner := Shortest(|text|);
    Memo(One, Shortest(1 + inner.Size() + |text|), inner, text)
  }

  function EncodeField(t: TokenOperation, kind: FieldKind, withInfo: bool): Field
    requires ValidToken(t) && Present(t, kind)
  {
    match kind
    case AmountKind =>
      var (significand, exponent) := t.amount.value;
      AmountField(Name(NAME_AMOUNT),
                  Amount(Inline, Inline, EncodeExponent(exponent), Shortest(significand), significand))
    case AddressKind =>
      AddressField(Name(if t.op.Transfer? then NAME_RECIPIENT else NAME_TARGET), EncodeAddress(t.account.value, withInfo))
    case MemoKind => MemoField(Name(NAME_MEMO), EncodeMemo(t.memo.value))
  }

  function EncodeFields(t: TokenOperation, order: seq<FieldKind>, withInfo: bool): (fs: seq<Field>)
    requires ValidToken(t) && forall i :: 0 <= i < |order| ==> Present(t, order[i])
    ensures |fs| == |order|
  {
    if order == [] then [] else [EncodeField(t, order[0], withInfo)] + EncodeFields(t, order[1..], withInfo)
  }

  /** The order names every field the operation has. */
  predicate Covers(t: TokenOperation, order: seq<FieldKind>) {
    && (forall i :: 0 <= i < |order| ==> Present(t, order[i]))
    && (t.amount.Some? ==> AmountKind in order) && (t.account.Some? ==> AddressKind in order)
    && (t.memo.Some? ==> MemoKind in order) && |order| <= UINT64_MAX
  }

  /** The shortest-form encoding, with the fields in the given order and the coin info or not. */
  function EncodeOperation(t: TokenOperation, order: seq<FieldKind>, withInfo: bool): Operation
    requires ValidToken(t) && Covers(t, order)
  {
    Operation(Inline, Inline, Name(NameOf(t.op)), Shortest(|order|), EncodeFields(t, order, withInfo))
  }

  lemma NamesAreNames(op: OpType)
    ensures OpTypeOf(NameOf(op)) == Some(op) && |NameOf(op)| <= OP_NAME_MAX
    ensures FieldKindOf(NAME_AMOUNT) == AmountKind && FieldKindOf(NAME_MEMO) == MemoKind
    ensures FieldKindOf(NAME_RECIPIENT) == AddressKind && FieldKindOf(NAME_TARGET) == AddressKind
  {
    OpNames(op);
    FieldNames();
  }

  lemma OpNames(op: OpType)
    ensures OpTypeOf(NameOf(op)) == Some(op) && |NameOf(op)| <= OP_NAME_MAX
  {
    hide CString;
    NoNul(NameOf(op));
    assert NAME_MINT[0] != NAME_BURN[0];
    match op {
      case Transfer => assert |NameOf(op)| == 8;
      case Mint => assert |NameOf(op)| == 4;
      case Burn => assert |NameOf(op)| == 4;
      case AddAllowList => assert |NameOf(op)| == 12;
      case RemoveAllowList => assert |NameOf(op)| == 15;
      case AddDenyList => assert |NameOf(op)| == 11;
      case RemoveDenyList => assert |NameOf(op)| == 14;
      case Pause => assert |NameOf(op)| == 5;
      case Unpause => assert |NameOf(op)| == 7;
    }
  }

  lemma FieldNames()
    ensures FieldKindOf(NAME_AMOUNT) == AmountKind && FieldKindOf(NAME_MEMO) == MemoKind
    ensures FieldKindOf(NAME_RECIPIENT) == AddressKind && FieldKindOf(NAME_TARGET) == AddressKind
  {
    hide CString;
    NoNul(NAME_AMOUNT);
    NoNul(NAME_MEMO);
    NoNul(NAME_RECIPIENT);
    NoNul(NAME_TARGET);
    assert |NAME_AMOUNT| == 6 && |NAME_TARGET| == 6 && |NAME_MEMO| == 4 && |NAME_RECIPIENT| == 9;
    assert NAME_AMOUNT[0] != NAME_TARGET[0];
  }

  lemma {:induction false} NoNul(text: seq<byte>)
    requires 0 !in text
    ensures CString(text) == text
  {
    if text != [] {
      NoNul(text[1..]);
    }
  }

  lemma EncodedFieldIsValid(t: TokenOperation, kind: FieldKind, withInfo: bool)
    requires ValidToken(t) && Present(t, kind)
    ensures var f := EncodeField(t, kind, withInfo);
      && ValidField(f)
      && f.AmountField? == kind.AmountKind? && f.AddressField? == kind.AddressKind?
      && forall k :: Keep(k, f) == match kind case AmountKind => k.(amount := t.amount)
                                              case AddressKind => k.(address := t.account)
                                              case MemoKind => k.(memo := t.memo)
  {
    NamesAreNames(t.op);
    Pow256Values();
    hide CString, FieldKindOf;
    var f := EncodeField(t, kind, withInfo);
    match kind
    case AmountKind =>
    case AddressKind => EncodedAddressIsValid(t.account.value, withInfo);
    case MemoKind =>
      EncodedMemoIsValid(t.memo.value);
  }

  lemma EncodedMemoIsValid(text: seq<byte>)
    requires |text| <= MEMO_TEXT_MAX && DisplayableText(text)
    ensures ValidMemo(EncodeMemo(text))
  {
    Pow256Values();
    var m := EncodeMemo(text);
    assert |MemoItem(m)| == 1 + m.inner.Size() + |text|;
  }

  lemma EncodedAddressIsValid(account: seq<byte>, withInfo: bool)
    requires |account| == ADDRESS_LENGTH
    ensures ValidAddress(EncodeAddress(account, withInfo))
    ensures AddressData(EncodeAddress(account, withInfo).entries) == Some(account)
  {
    Pow256Values();
    var data := Data(Inline, Name(account));
    assert [data][1..] == [];
    if withInfo {
      var info := Info(Inline, CoinInfo(Two, Inline, Inline, Two));
      assert [info, data][1..] == [data];
    }
  }

  /** What the context keeps of the encoded fields, in whatever order they were sent. */
  lemma {:induction false} EncodedFieldsAreKept(t: TokenOperation, order: seq<FieldKind>, withInfo: bool, k: Kept)
    requires ValidToken(t) && forall i :: 0 <= i < |order| ==> Present(t, order[i])
    ensures var fs := EncodeFields(t, order, withInfo);
      && ValidFields(fs)
      && KeepAll(k, fs) == Kept(if AmountKind in order then t.amount else k.amount,
                                if AddressKind in order then t.account else k.address,
                                if MemoKind in order then t.memo else k.memo)
      && HasAmount(fs) == (AmountKind in order) && HasAddress(fs) == (AddressKind in order)
    decreases |order|
  {
    hide ValidField, EncodeField, Keep, ValidToken;
    if order != [] {
      var f := EncodeField(t, order[0], withInfo);
      EncodedFieldIsValid(t, order[0], withInfo);
      EncodedFieldsAreKept(t, order[1..], withInfo, Keep(k, f));
      assert order == [order[0]] + order[1..];
      assert EncodeFields(t, order, withInfo)[1..] == EncodeFields(t, order[1..], withInfo);
    }
  }

  /** The review of an encoded operation shows exactly that operation. */
  lemma EncodedOperationIsReviewed(t: TokenOperation, order: seq<FieldKind>, withInfo: bool)
    requires ValidToken(t) && Covers(t, order)
    ensures var o := EncodeOperation(t, order, withInfo);
      ValidOperation(o) && ReviewOf(o) == Review(t.op, t.amount, t.account, t.memo)
  {
    hide ValidField, OpTypeOf, CString;
    NamesAreNames(t.op);
    EncodedFieldsAreKept(t, order, withInfo, NOTHING_KEPT);
  }

  /** The payload a wallet sends for an operation. */
  function Payload(t: TokenOperation, order: seq<FieldKind>, withInfo: bool): seq<byte>
    requires ValidToken(t) && Covers(t, order)
  {
    EncodedOperationIsReviewed(t, order, withInfo);
    Print(EncodeOperation(t, order, withInfo))
  }

  /** What a wallet puts behind the header of INIT: the token, the payload length, and perhaps a fee. */
  function InitTail(id: seq<byte>, total: nat, suffix: seq<byte>): seq<byte>
    requires |id| <= UINT8_MAX
  {
    [|id|] + (id + (ToBe(total, 4) + suffix))
  }

  lemma TailIsRead(id: seq<byte>, total: nat, suffix: seq<byte>, p2: uint8)
    requires 1 <= |id| <= PLT_TOKEN_ID_MAX && DisplayableText(id) && 1 <= total <= UINT32_MAX
    requires |suffix| == if p2 == 1 then 8 else 0
    ensures var tail := ReadTail(InitTail(id, total, suffix), p2);
      if total <= APP_PLT_CBOR_MAX then
        && tail.Tail? && tail.tokenId == id && tail.total == total
        && (tail.fee.Some? <==> p2 == 1 && FromBe(suffix) != 0xFFFF_FFFF_FFFF_FFFF)
        && (tail.fee.Some? ==> tail.fee.value == FromBe(suffix))
      else tail == BadTail(ERROR_PLT_BUFFER_ERROR)
  {
    hide DisplayableText, FromBe, ToBe;
    Pow256Values();
    FromBeToBe(total, 4);
    var rest := InitTail(id, total, suffix);
    assert rest[1..1 + |id|] == id && rest[1 + |id|..] == ToBe(total, 4) + suffix;
    assert (ToBe(total, 4) + suffix)[..4] == ToBe(total, 4) && (ToBe(total, 4) + suffix)[4..] == suffix;
  }

  /** Sent in any split, the payload is read back as the operation. */
  lemma PayloadIsReviewed(t: TokenOperation, order: seq<FieldKind>, withInfo: bool, s: State, chunks: seq<seq<byte>>)
    requires ValidToken(t) && Covers(t, order)
    requires s.stage.Collecting? && s.received == [] && chunks != [] && Chunks(chunks)
    requires Flatten(chunks) == Payload(t, order, withInfo) && |Flatten(chunks)| == s.total
    ensures var (s', reply) := Feed(s, chunks);
      && reply == Sign && s'.review == Some(Review(t.op, t.amount, t.account, t.memo)) && s'.path == s.path
      && s'.fee == s.fee && s'.tokenId == s.tokenId && s'.hash == s.hash + Payload(t, order, withInfo)
  {
    hide Print, ParsePlt;
    EncodedOperationIsReviewed(t, order, withInfo);
    var o := EncodeOperation(t, order, withInfo);
    assert s.received + Flatten(chunks) == Print(o);
    ParseIsComplete(o);
    SplitDoesNotMatter(s, chunks);
    FeedKeepsRest(s, chunks);
  }

  lemma {:induction false} FeedKeepsRest(s: State, chunks: seq<seq<byte>>)
    requires chunks != []
    ensures var t := Feed(s, chunks).0; t.path == s.path && t.fee == s.fee && t.tokenId == s.tokenId
    decreases |chunks|
  {
    hide ParsePlt;
    if |chunks| > 1 && Cont(s, 0, chunks[0]).1.Ack? {
      FeedKeepsRest(Cont(s, 0, chunks[0]).0, chunks[1..]);
    }
  }

  /**
   Round trip, from the INIT packet on: any operation, its fields in any order, whose encoding has
   at most 512 bytes, sent in any split into packets, reaches the signing screen; it shows that
   operation, with the fee estimate unless it is absent or marked as omitted, and the hash covers
   the header, the token and that encoding. A longer encoding is refused by INIT.
   */
  lemma RoundTrip(t: TokenOperation, order: seq<FieldKind>, withInfo: bool, s: State, p2: uint8, cdata: seq<byte>,
                  id: seq<byte>, suffix: seq<byte>, chunks: seq<seq<byte>>)
    requires ValidToken(t) && Covers(t, order) && s.stage.Initial? && p2 <= 1
    requires 1 <= |id| <= PLT_TOKEN_ID_MAX && DisplayableText(id) && |suffix| == if p2 == 1 then 8 else 0
    requires var start, n := StartTransaction(cdata, PLT_KIND), |Payload(t, order, withInfo)|;
      n <= UINT32_MAX && start.Started? && start.rest == InitTail(id, n, suffix)
    requires chunks != [] && Chunks(chunks) && Flatten(chunks) == Payload(t, order, withInfo)
    ensures var start, payload := StartTransaction(cdata, PLT_KIND), Payload(t, order, withInfo);
      var (s0, init) := Step(s, 0, p2, cdata);
      if |payload| <= 512 then
        var (s', reply) := Feed(s0, chunks);
        && init == Ack && s0.received == [] && s0.total == |payload|
        && reply == Sign && s'.review == Some(Review(t.op, t.amount, t.account, t.memo))
        && s'.path == start.path && s'.hash == Prefix(start.transcript, id, |payload|) + payload && s'.tokenId == id
        && (s'.fee.Some? <==> p2 == 1 && FromBe(suffix) != 0xFFFF_FFFF_FFFF_FFFF)
        && (s'.fee.Some? ==> s'.fee.value == FromBe(suffix))
      else init == Refuse(ERROR_PLT_BUFFER_ERROR)
  {
    hide StartTransaction, ReadTail, ToBe, FromBe, Print, Payload, DisplayableText;
    var payload := Payload(t, order, withInfo);
    assert payload != [] by { FlattenIsLong(chunks); }
    TailIsRead(id, |payload|, suffix, p2);
    if |payload| <= APP_PLT_CBOR_MAX {
      PayloadIsReviewed(t, order, withInfo, Step(s, 0, p2, cdata).0, chunks);
    }
  }

  // ---- What the review leaves out ----

  /** The value of this field is on the screen. */
  predicate Visible(f: Field, r: Review) {
    match f
    case AmountField(_, a) => r.amount == Some((a.significand, ExponentValue(a.exponent)))
    case AddressField(_, a) => r.account == AddressData(a.entries)
    case MemoField(_, m) => r.memo == Some(m.text)
  }

  /** The operation draws a row for fields of this kind. */
  predicate Drawn(op: OpType, f: Field) {
    match f
    case AmountField(_, _) => NeedsAmount(op)
    case AddressField(_, _) => NeedsAddress(op)
    case MemoField(_, _) => op.Transfer?
  }

  predicate Agree(f: Field, g: Field) {
    Keep(NOTHING_KEPT, f) == Keep(NOTHING_KEPT, g)
  }

  predicate SameKind(f: Field, g: Field) {
    f.AmountField? == g.AmountField? && f.AddressField? == g.AddressField?
  }

  /** `k` holds the value this field carries. */
  predicate Holding(k: Kept, f: Field) {
    Keep(k, f) == k
  }

  predicate NoLater(fs: seq<Field>, i: nat)
    requires i < |fs|
  {
    forall j :: i < j < |fs| ==> !SameKind(fs[i], fs[j])
  }

  lemma {:induction false} FieldsAreValid(fs: seq<Field>, i: nat)
    requires ValidFields(fs) && i < |fs|
    ensures ValidField(fs[i])
  {
    hide ValidField;
    if i > 0 {
      FieldsAreValid(fs[1..], i - 1);
    }
  }

  lemma {:induction false} OthersDoNotTouch(k: Kept, fs: seq<Field>, f: Field)
    requires ValidFields(fs) && ValidField(f) && Holding(k, f)
    requires forall j :: 0 <= j < |fs| ==> !SameKind(f, fs[j])
    ensures Holding(KeepAll(k, fs), f)
    decreases |fs|
  {
    hide ValidField;
    if fs != [] {
      FieldsAreValid(fs, 0);
      OthersDoNotTouch(Keep(k, fs[0]), fs[1..], f);
    }
  }

  lemma KeepHolds(k: Kept, f: Field)
    ensures Holding(Keep(k, f), f)
  {
  }

  /** What is kept of each kind of field is its last occurrence. */
  lemma {:induction false} LastWins(k: Kept, fs: seq<Field>, i: nat)
    requires ValidFields(fs) && i < |fs| && NoLater(fs, i)
    ensures ValidField(fs[i]) && Holding(KeepAll(k, fs), fs[i])
    decreases |fs|
  {
    FieldsAreValid(fs, i);
    FieldsAreValid(fs, 0);
    hide ValidField;
    if i == 0 {
      KeepHolds(k, fs[0]);
      hide Keep, Holding;
      OthersDoNotTouch(Keep(k, fs[0]), fs[1..], fs[0]);
    } else {
      hide Keep, Holding;
      assert NoLater(fs[1..], i - 1) by {
        forall j | i - 1 < j < |fs[1..]| ensures !SameKind(fs[1..][i - 1], fs[1..][j]) {
          assert fs[1..][j] == fs[j + 1];
        }
      }
      LastWins(Keep(k, fs[0]), fs[1..], i - 1);
    }
  }

  lemma {:induction false} LastOfKind(fs: seq<Field>, i: nat) returns (last: nat)
    requires i < |fs|
    ensures i <= last < |fs| && SameKind(fs[i], fs[last]) && NoLater(fs, last)
    decreases |fs| - i
  {
    if NoLater(fs, i) {
      last := i;
    } else {
      var j :| i < j < |fs| && SameKind(fs[i], fs[j]);
      last := LastOfKind(fs, j);
    }
  }

  /**
   Every signed field is on screen exactly when the operation draws each of them and no two of
   a kind differ: the parser accepts known fields its operation never shows, and repetitions.
   */
  lemma EveryFieldIsShown(o: Operation)
    requires ValidOperation(o)
    ensures (forall i :: 0 <= i < |o.fields| ==> Visible(o.fields[i], ReviewOf(o)))
            <==> EachDrawn(OpTypeOf(Content(o.name)).value, o.fields) && EachAgreed(o.fields)
  {
    var op, fs := OpTypeOf(Content(o.name)).value, o.fields;
    var kept := KeepAll(NOTHING_KEPT, fs);
    hide OpTypeOf, ValidOperation, KeepAll, ValidFields;
    forall i | 0 <= i < |fs|
      ensures Visible(fs[i], ReviewOf(o)) <==> Drawn(op, fs[i]) && Holding(kept, fs[i])
    {
      VisibleMeansHeld(op, fs, i);
    }
    if EachAgreed(fs) {
      forall i | 0 <= i < |fs| ensures Holding(kept, fs[i]) {
        var j := LastOfKind(fs, i);
        LastWins(NOTHING_KEPT, fs, j);
      }
    }
  }

  predicate EachDrawn(op: OpType, fs: seq<Field>) {
    forall i :: 0 <= i < |fs| ==> Drawn(op, fs[i])
  }

  predicate EachAgreed(fs: seq<Field>) {
    forall i, j :: 0 <= i < |fs| && 0 <= j < |fs| && SameKind(fs[i], fs[j]) ==> Agree(fs[i], fs[j])
  }

  lemma VisibleMeansHeld(op: OpType, fs: seq<Field>, i: nat)
    requires ValidFields(fs) && i < |fs|
    ensures var kept := KeepAll(NOTHING_KEPT, fs);
      Visible(fs[i], Rows(op, kept)) <==> Drawn(op, fs[i]) && Holding(kept, fs[i])
  {
    FieldsAreValid(fs, i);
  }

  const PAUSE_TREE := Operation(Inline, Inline, Whole(Inline, NAME_PAUSE), Inline, [])

  function PauseWithMemo(memo: Memo): Operation {
    PAUSE_TREE.(fields := [MemoField(Whole(Inline, NAME_MEMO), memo)])
  }

  /** The device signs the bytes of `o` after the review `r`. */
  predicate SignedAs(o: Operation, r: Review) {
    ValidOperation(o) && ParsePlt(Print(o)) == Parsed(o) && ReviewOf(o) == r
  }

  predicate SameBytes(a: Operation, b: Operation) {
    ValidOperation(a) && ValidOperation(b) && Print(a) == Print(b)
  }

  /**
   Not every signed byte is on screen: a pause with a memo, or with a wider length, is accepted
   with the review of a plain pause.
   */
  lemma ReviewIsNotInjective(memo: Memo)
    requires ValidMemo(memo)
    ensures var wide := PAUSE_TREE.(fieldsWidth := One);
            var r := Review(Pause, None, None, None);
      && SignedAs(PAUSE_TREE, r) && SignedAs(wide, r) && SignedAs(PauseWithMemo(memo), r)
      && !SameBytes(PAUSE_TREE, wide) && !SameBytes(PAUSE_TREE, PauseWithMemo(memo))
  {
    hide Print, ParsePlt, ValidMemo, ValidOperation, OpTypeOf;
    var wide, withMemo := PAUSE_TREE.(fieldsWidth := One), PauseWithMemo(memo);
    PauseTreesAreValid(memo);
    ParseIsComplete(PAUSE_TREE);
    ParseIsComplete(wide);
    ParseIsComplete(withMemo);
  }

  lemma PauseTreesAreValid(memo: Memo)
    requires ValidMemo(memo)
    ensures OpTypeOf(NAME_PAUSE) == Some(Pause)
    ensures ValidOperation(PAUSE_TREE) && ValidOperation(PAUSE_TREE.(fieldsWidth := One))
    ensures ValidOperation(PauseWithMemo(memo))
  {
    OpNames(Pause);
    FieldNames();
    Pow256Values();
    hide CString, OpTypeOf, FieldKindOf, ValidMemo;
    assert |NAME_PAUSE| == 5 && |NAME_MEMO| == 4;
    assert PauseWithMemo(memo).fields[1..] == [];
  }

  lemma RequiredFields(o: Operation)
    requires ValidOperation(o)
    ensures var op := OpTypeOf(Content(o.name)).value;
      (NeedsAmount(op) ==> HasAmount(o.fields)) && (NeedsAddress(op) ==> HasAddress(o.fields))
  {
  }

  // ---- The handler ----

  class SignPlt {
    var stage: Stage
    var cborTotalLength: nat
    var cborReceived: nat
    const tokenId: array<byte>
    var tokenIdLength: nat
    const cborBuf: array<byte>
    const parsed: ParseContext
    var displayFee: Option<nat>
    var shown: Option<Review>
    // The signing path and the transaction hash live outside the instruction context.
    var path: Path
    var hash: seq<byte>
    ghost var header: seq<byte>

    ghost predicate Valid()
      reads this, parsed
    {
      && tokenId.Length == PLT_TOKEN_ID_MAX + 1 && cborBuf.Length == APP_PLT_CBOR_MAX && tokenId != cborBuf
      && parsed.Valid() && {parsed.address, parsed.displayMemo} !! {tokenId, cborBuf}
      && tokenIdLength <= PLT_TOKEN_ID_MAX && cborReceived <= cborTotalLength <= APP_PLT_CBOR_MAX
    }

    ghost function Value(): State
      requires Valid()
      reads this, parsed, tokenId, cborBuf
    {
      State(stage, header, tokenId[..tokenIdLength], cborTotalLength, cborBuf[..cborReceived], displayFee, path, hash,
            shown)
    }

    constructor ()
      ensures Valid() && stage == Wiped
    {
      stage, cborTotalLength, cborReceived, tokenIdLength, displayFee, shown := Wiped, 0, 0, 0, None, None;
      tokenId := new byte[PLT_TOKEN_ID_MAX + 1](_ => 0);
      cborBuf := new byte[APP_PLT_CBOR_MAX](_ => 0);
      parsed := new ParseContext();
      path, hash, header := Path([], Invalid), [], [];
    }

    /** explicit_bzero of the context, by plt_refuse or by the dispatch guard. */
    method WipeContext(next: Stage)
      requires Valid()
      modifies this`stage, this`cborTotalLength, this`cborReceived, this`tokenIdLength, this`displayFee, this`shown
      modifies tokenId, cborBuf
      ensures Valid() && stage == next && Value().tokenId == [] && Value().received == [] && shown == None
      ensures forall i :: 0 <= i < cborBuf.Length ==> cborBuf[i] == 0
      ensures forall i :: 0 <= i < tokenId.Length ==> tokenId[i] == 0
    {
      forall i | 0 <= i < tokenId.Length { tokenId[i] := 0; }
      forall i | 0 <= i < cborBuf.Length { cborBuf[i] := 0; }
      stage, cborTotalLength, cborReceived, tokenIdLength, displayFee, shown := next, 0, 0, 0, None, None;
    }

    /** Keep the token id, terminated. */
    method KeepTokenId(id: seq<byte>)
      requires |id| < tokenId.Length && |id| <= UINT8_MAX
      modifies this`tokenIdLength, tokenId
      ensures tokenIdLength == |id| && tokenId[..tokenIdLength] == id && tokenId[tokenIdLength] == 0
    {
      forall i | 0 <= i < |id| {
        tokenId[i] := id[i];
      }
      tokenId[|id|] := 0;
      tokenIdLength := |id|;
    }

    /** Lines 650 to 712 of the INIT branch: the data behind the header. */
    method HandleTail(p2: uint8, data: seq<byte>) returns (sw: int)
      requires Valid()
      modifies this`hash, this`tokenIdLength, this`cborTotalLength, this`cborReceived, this`displayFee, tokenId
      ensures match ReadTail(data, p2)
              case BadTail(e) => sw == e && sw != 0
              case Tail(id, total, fee) =>
                && sw == 0 && tokenIdLength == |id| && tokenId[..tokenIdLength] == id && cborTotalLength == total
                && cborReceived == 0 && displayFee == fee && hash == old(hash) + [|id|] + id + ToBe(total, 4)
      ensures Valid()
    {
      hide FromBe, ToBe, Pow256;
      var rest := data;
      cborReceived := 0;
      if |rest| < 1 {
        return ERROR_PLT_DATA_ERROR;
      }
      var tokenIdLen := rest[0];
      if tokenIdLen < 1 || tokenIdLen > PLT_TOKEN_ID_MAX {
        return ERROR_PLT_DATA_ERROR;
      }
      if |rest| < 1 + tokenIdLen + 4 {
        return ERROR_PLT_DATA_ERROR;
      }
      var id := rest[1..1 + tokenIdLen];
      var displayable := IsDisplayableText(id);
      if !displayable {
        return ERROR_PLT_DATA_ERROR;
      }
      hash := hash + rest[..1 + tokenIdLen];
      assert rest[..1 + tokenIdLen] == [|id|] + id;
      KeepTokenId(id);
      sw := HandleTotal(p2, rest[1 + tokenIdLen..]);
      assert tokenId[..tokenIdLength] == id;
    }

    /** The declared length of the payload, and the fee suffix. */
    method HandleTotal(p2: uint8, rest: seq<byte>) returns (sw: int)
      requires |rest| >= 4
      modifies this`hash, this`cborTotalLength, this`displayFee
      ensures sw == if FromBe(rest[..4]) == 0 || FromBe(rest[..4]) > APP_PLT_CBOR_MAX then ERROR_PLT_BUFFER_ERROR
                    else if |rest| != 4 + (if p2 == 1 then 8 else 0) then SWO_INCORRECT_DATA else 0
      ensures sw == 0 ==>
                && cborTotalLength == FromBe(rest[..4]) && hash == old(hash) + ToBe(cborTotalLength, 4)
                && displayFee == if p2 == 1 && FromBe(rest[4..]) != FEE_OMITTED then Some(FromBe(rest[4..])) else None
      ensures sw != 0 ==> cborTotalLength == old(cborTotalLength)
    {
      hide FromBe, ToBe;
      var cborTotal := FromBe(rest[..4]);
      if cborTotal == 0 || cborTotal > APP_PLT_CBOR_MAX {
        return ERROR_PLT_BUFFER_ERROR;
      }
      ToBeFromBe(rest[..4]);
      hash := hash + rest[..4];
      displayFee := None;
      if p2 == 1 {
        if |rest| != 4 + 8 {
          return SWO_INCORRECT_DATA;
        }
        if FromBe(rest[4..]) != FEE_OMITTED {
          displayFee := Some(FromBe(rest[4..]));
        }
      } else if |rest| != 4 {
        return SWO_INCORRECT_DATA;
      }
      cborTotalLength := cborTotal;
      sw := 0;
    }

    /** The INIT branch of handle_sign_plt, before a refusal or a throw clears the context. */
    method HandleInit(p2: uint8, cdata: seq<byte>) returns (reply: Reply)
      requires Valid()
      modifies this, tokenId
      ensures Valid() && reply == Init(old(Value()), p2, cdata).1
      ensures reply.Open() ==> Value() == Init(old(Value()), p2, cdata).0
    {
      hide StartTransaction, ReadTail, FromBe, ToBe;
      if stage != Initial {
        return Refuse(ERROR_INVALID_STATE);
      }
      if p2 != 0 && p2 != 1 {
        return Refuse(SWO_WRONG_P1_P2);
      }
      var start := StartTransaction(cdata, PLT_KIND);
      if start.StartThrown? {
        return Throw(start.sw);
      }
      path, hash, header := start.path, start.transcript, start.transcript;
      var sw := HandleTail(p2, start.rest);
      if sw != 0 {
        return Refuse(sw);
      }
      stage, shown := Collecting, None;
      reply := Ack;
    }

    /** The CONT branch: hash, buffer, and on the last byte parse and draw the review. */
    method HandleCont(p2: uint8, cdata: seq<byte>) returns (reply: Reply)
      requires Valid()
      modifies this`hash, this`cborReceived, this`shown, cborBuf, parsed, parsed.address, parsed.displayMemo
      ensures Valid() && reply == Cont(old(Value()), p2, cdata).1
      ensures reply.Open() ==> Value() == Cont(old(Value()), p2, cdata).0
    {
      hide ParsePlt, CString, ValidOperation, KeepAll, OpTypeOf, HasAmount, HasAddress;
      if stage != Collecting {
        return Refuse(ERROR_INVALID_STATE);
      }
      if p2 != 0 {
        return Refuse(SWO_WRONG_P1_P2);
      }
      if |cdata| == 0 {
        return Refuse(ERROR_PLT_CBOR_ERROR);
      }
      if |cdata| > cborTotalLength - cborReceived {
        return Refuse(ERROR_PLT_CBOR_ERROR);
      }
      hash := hash + cdata;
      forall i | 0 <= i < |cdata| {
        cborBuf[cborReceived + i] := cdata[i];
      }
      cborReceived := cborReceived + |cdata|;
      assert cborBuf[..cborReceived] == old(cborBuf[..cborReceived]) + cdata;
      if cborReceived != cborTotalLength {
        return Ack;
      }
      var parseErr := parsed.ParsePltCbor(cborBuf[..cborReceived]);
      if parseErr != 0 {
        return Refuse(parseErr);
      }
      RequiredFields(ParsePlt(cborBuf[..cborReceived]).operation);
      var op := parsed.opType;
      var memo := None;
      if parsed.hasMemo {
        memo := Some(CString(parsed.displayMemo[..]));
      }
      shown := Some(Review(op,
                           if op in {Transfer, Mint, Burn}
                           then Some((parsed.amountSignificand, parsed.amountExponent)) else None,
                           if op in {Transfer, AddAllowList, RemoveAllowList, AddDenyList, RemoveDenyList}
                           then Some(parsed.address[..]) else None,
                           if op == Transfer then memo else None));
      reply := Sign;
    }

    /** handle_sign_plt; every reply that ends the flow leaves a cleared context behind. */
    method Handle(p1: uint8, p2: uint8, cdata: seq<byte>, isInitialCall: bool) returns (reply: Reply)
      requires Valid()
      modifies this, tokenId, cborBuf, parsed, parsed.address, parsed.displayMemo
      ensures Valid()
      ensures var s := if isInitialCall then old(Value()).(stage := Initial) else old(Value());
        reply == Step(s, p1, p2, cdata).1 && (reply.Open() ==> Value() == Step(s, p1, p2, cdata).0)
      ensures !reply.Open() ==> !stage.Collecting? && Value().received == [] && Value().tokenId == [] && shown == None
    {
      if isInitialCall {
        stage := Initial;
      }
      if p1 == 0 {
        reply := HandleInit(p2, cdata);
      } else if p1 == 1 {
        reply := HandleCont(p2, cdata);
      } else {
        reply := Refuse(ERROR_INVALID_PARAM);
      }
      if reply.Refuse? {
        WipeContext(Initial);
      } else if reply.Throw? {
        WipeContext(Wiped);
      }
    }
  }
}
