/**
 When a token-operation review determines the signed payload: never among all payloads the device
 accepts, always among those in one normal form.
 */
module PltNormal {
  import opened Bytes
  import opened Cbor
  import opened Options
  import opened PltFlow
  import opened PltGrammar
  import opened PltHandler
  import opened PltParser

  // ---- The normal form, as a check on the payload ----

  predicate IsShortest(width: Width, n: nat) {
    n <= UINT64_MAX && width == Shortest(n)
  }

  /** One definite string in shortest form. */
  predicate NormalStr(s: Str) {
    s.Whole? && IsShortest(s.width, |s.content|)
  }

  /** The name itself, with nothing behind it. */
  predicate NormalName(s: Str, name: seq<byte>) {
    NormalStr(s) && s.content == name
  }

  predicate NormalAmount(a: Amount) {
    && IsShortest(a.tag, TAG_DECIMAL_FRACTION) && IsShortest(a.list, 2) && IsShortest(a.sigWidth, a.significand)
    && match a.exponent
       case Zero(width) => IsShortest(width, 0)
       case Negative(width, raw) => IsShortest(width, raw)
  }

  /** The account address alone, without coin information. */
  predicate NormalAddress(a: Address) {
    && IsShortest(a.tag, TAG_ACCOUNT_ADDRESS) && |a.entries| == 1 && IsShortest(a.mapping, 1)
    && a.entries[0].Data? && IsShortest(a.entries[0].key, ADDRESS_KEY_DATA) && NormalStr(a.entries[0].data)
  }

  predicate NormalMemo(m: Memo) {
    && IsShortest(m.tag, TAG_ENCODED_CBOR) && IsShortest(m.inner, |m.text|)
    && IsShortest(m.envelope, 1 + m.inner.Size() + |m.text|)
  }

  function AddressName(op: OpType): seq<byte> {
    if op.Transfer? then NAME_RECIPIENT else NAME_TARGET
  }

  /** A field the operation draws a row for, in shortest form and under its own name. */
  predicate NormalField(op: OpType, f: Field) {
    && Drawn(op, f)
    && match f
       case AmountField(name, amount) => NormalName(name, NAME_AMOUNT) && NormalAmount(amount)
       case AddressField(name, address) => NormalName(name, AddressName(op)) && NormalAddress(address)
       case MemoField(name, memo) => NormalName(name, NAME_MEMO) && NormalMemo(memo)
  }

  function KindRank(f: Field): nat {
    match f case AmountField(_, _) => 0 case AddressField(_, _) => 1 case MemoField(_, _) => 2
  }

  /** Amount, address, memo: in that order, none of them twice. */
  predicate InOrder(fs: seq<Field>) {
    forall i, j :: 0 <= i < j < |fs| ==> KindRank(fs[i]) < KindRank(fs[j])
  }

  predicate NormalFields(op: OpType, fs: seq<Field>) {
    forall i :: 0 <= i < |fs| ==> NormalField(op, fs[i])
  }

  predicate Normal(o: Operation)
    requires ValidOperation(o)
  {
    var op := OpTypeOf(Content(o.name)).value;
    && IsShortest(o.list, 1) && IsShortest(o.mapping, 1) && IsShortest(o.fieldsWidth, |o.fields|)
    && NormalName(o.name, NameOf(op)) && NormalFields(op, o.fields) && InOrder(o.fields)
  }

  // ---- The normal payload of a review ----

  function KindOf(f: Field): FieldKind {
    match f case AmountField(_, _) => AmountKind case AddressField(_, _) => AddressKind case MemoField(_, _) => MemoKind
  }

  function Kinds(fs: seq<Field>): (r: seq<FieldKind>)
    ensures |r| == |fs| && forall i :: 0 <= i < |fs| ==> r[i] == KindOf(fs[i])
  {
    if fs == [] then [] else [KindOf(fs[0])] + Kinds(fs[1..])
  }

  function TokenOf(r: Review): TokenOperation {
    TokenOperation(r.op, r.amount, r.account, r.memo)
  }

  /** The fields a review shows, in order. */
  function Order(r: Review): seq<FieldKind> {
    Build(r.amount.Some?, r.account.Some?, r.memo.Some?)
  }

  /** The operation that has just the fields of a review, encoded in normal form. */
  function NormalOf(r: Review): Operation
    requires ValidToken(TokenOf(r))
  {
    OrderCovers(r);
    EncodeOperation(TokenOf(r), Order(r), false)
  }

  lemma OrderCovers(r: Review)
    requires ValidToken(TokenOf(r))
    ensures Covers(TokenOf(r), Order(r))
  {
  }

  // ---- A review comes from a well-formed operation ----

  lemma ValidKeptAmount(fs: seq<Field>, k: Kept)
    requires ValidFields(fs)
    requires k.amount.Some? ==> 0 <= k.amount.value.0 <= UINT64_MAX && MIN_EXPONENT <= k.amount.value.1 <= 0
    requires k.address.Some? ==> |k.address.value| == ADDRESS_LENGTH
    requires k.memo.Some? ==> |k.memo.value| <= MEMO_TEXT_MAX && DisplayableText(k.memo.value)
    ensures var kept := KeepAll(k, fs);
      && (kept.amount.Some? ==> 0 <= kept.amount.value.0 <= UINT64_MAX && MIN_EXPONENT <= kept.amount.value.1 <= 0)
      && (kept.address.Some? ==> |kept.address.value| == ADDRESS_LENGTH)
      && (kept.memo.Some? ==> |kept.memo.value| <= MEMO_TEXT_MAX && DisplayableText(kept.memo.value))
      && (HasAmount(fs) || k.amount.Some? ==> kept.amount.Some?)
      && (HasAddress(fs) || k.address.Some? ==> kept.address.Some?)
    decreases |fs|
  {
    hide FieldKindOf, DisplayableText;
    if fs != [] {
      KeptValue(fs[0], k);
      ValidKeptAmount(fs[1..], Keep(k, fs[0]));
    }
  }

  lemma KeptValue(f: Field, k: Kept)
    requires ValidField(f)
    ensures f.AmountField? ==>
              var a := Keep(k, f).amount; a.Some? && 0 <= a.value.0 <= UINT64_MAX && MIN_EXPONENT <= a.value.1 <= 0
    ensures f.AddressField? ==> var a := Keep(k, f).address; a.Some? && |a.value| == ADDRESS_LENGTH
    ensures f.MemoField? ==> var m := Keep(k, f).memo; m.Some? && |m.value| <= MEMO_TEXT_MAX && DisplayableText(m.value)
  {
    hide FieldKindOf, DisplayableText;
    Pow256Values();
    if f.AddressField? {
      DataLength(f.address.entries);
    }
  }

  lemma DataLength(es: seq<Entry>)
    requires ValidEntries(es) && AddressData(es).Some?
    ensures |AddressData(es).value| == ADDRESS_LENGTH
  {
  }

  /**
   The review of any accepted operation shows the rows of its kind, and no others: an amount for
   transfer, mint and burn, an account for transfer and the lists, a memo for a transfer only.
   */
  lemma ReviewIsAToken(o: Operation)
    requires ValidOperation(o)
    ensures ValidToken(TokenOf(ReviewOf(o)))
  {
    hide ValidFields, OpTypeOf, KeepAll, DisplayableText;
    ValidKeptAmount(o.fields, NOTHING_KEPT);
  }

  // ---- A payload in normal form is the normal payload of its review ----

  /** The operation carries the value of this field. */
  predicate Carries(t: TokenOperation, f: Field) {
    match f
    case AmountField(_, a) => t.amount == Some((a.significand, ExponentValue(a.exponent)))
    case AddressField(_, a) => t.account.Some? && AddressData(a.entries) == t.account
    case MemoField(_, m) => t.memo == Some(m.text)
  }

  lemma NormalFieldIsEncoded(t: TokenOperation, f: Field)
    requires ValidToken(t) && ValidField(f) && NormalField(t.op, f) && Carries(t, f)
    ensures Present(t, KindOf(f)) && EncodeField(t, KindOf(f), false) == f
  {
    hide FieldKindOf, DisplayableText;
    Pow256Values();
    match f
    case AmountField(_, _) =>
    case AddressField(_, a) => assert a.entries == [a.entries[0]];
    case MemoField(_, _) =>
  }

  lemma {:induction false} NormalFieldsAreEncoded(t: TokenOperation, fs: seq<Field>)
    requires ValidToken(t) && ValidFields(fs) && NormalFields(t.op, fs)
    requires forall i :: 0 <= i < |fs| ==> Carries(t, fs[i])
    ensures forall i :: 0 <= i < |fs| ==> Present(t, Kinds(fs)[i])
    ensures EncodeFields(t, Kinds(fs), false) == fs
  {
    hide ValidField, NormalField, Carries, EncodeField, ValidToken;
    if fs != [] {
      assert NormalField(t.op, fs[0]) && Carries(t, fs[0]);
      NormalFieldIsEncoded(t, fs[0]);
      NormalFieldsAreEncoded(t, fs[1..]);
      assert Kinds(fs)[1..] == Kinds(fs[1..]);
      assert fs == [fs[0]] + fs[1..];
    }
  }

  /** The review holds the value of every field of a payload in normal form. */
  lemma ReviewCarries(o: Operation, i: nat)
    requires ValidOperation(o) && Normal(o) && i < |o.fields|
    ensures Carries(TokenOf(ReviewOf(o)), o.fields[i])
  {
    hide OpTypeOf, ValidOperation, KeepAll, ValidFields, ValidField;
    ValidParts(o);
    var op := OpTypeOf(Content(o.name)).value;
    assert NoLater(o.fields, i);
    LastWins(NOTHING_KEPT, o.fields, i);
    assert NormalField(op, o.fields[i]);
    HeldIsCarried(op, KeepAll(NOTHING_KEPT, o.fields), o.fields[i]);
  }

  lemma ValidParts(o: Operation)
    requires ValidOperation(o)
    ensures ValidFields(o.fields) && OpTypeOf(Content(o.name)).Some?
  {
  }

  lemma HeldIsCarried(op: OpType, kept: Kept, f: Field)
    requires ValidField(f) && Drawn(op, f) && Holding(kept, f)
    ensures Carries(TokenOf(Rows(op, kept)), f)
  {
    hide FieldKindOf;
  }

  /** A field of each kind is there exactly if the review shows it. */
  lemma KindsAreOrder(o: Operation)
    requires ValidOperation(o) && Normal(o)
    ensures Kinds(o.fields) == Order(ReviewOf(o))
  {
    hide OpTypeOf, ValidField, NormalField;
    var r, fs := ReviewOf(o), o.fields;
    var op := OpTypeOf(Content(o.name)).value;
    forall i | 0 <= i < |fs| ensures Carries(TokenOf(r), fs[i]) && Drawn(op, fs[i]) {
      ReviewCarries(o, i);
      assert NormalField(op, fs[i]);
      NormalIsDrawn(op, fs[i]);
    }
    KeptHasAField(NOTHING_KEPT, fs);
    SortedKinds(fs, r);
  }

  lemma NormalIsDrawn(op: OpType, f: Field)
    requires NormalField(op, f)
    ensures Drawn(op, f)
  {
  }

  lemma AtMostThree(fs: seq<Field>)
    requires InOrder(fs)
    ensures |fs| <= 3
  {
    if fs != [] {
      RankAtLeast(fs, |fs| - 1);
    }
  }

  lemma {:induction false} RankAtLeast(fs: seq<Field>, i: nat)
    requires InOrder(fs) && i < |fs|
    ensures KindRank(fs[i]) >= i
  {
    if i > 0 {
      RankAtLeast(fs, i - 1);
    }
  }

  /** What is kept came from some field, or was there before. */
  lemma {:induction false} KeptHasAField(k: Kept, fs: seq<Field>)
    requires ValidFields(fs)
    ensures var kept := KeepAll(k, fs);
      && (kept.amount.Some? ==> k.amount.Some? || AmountKind in Kinds(fs))
      && (kept.address.Some? ==> k.address.Some? || AddressKind in Kinds(fs))
      && (kept.memo.Some? ==> k.memo.Some? || MemoKind in Kinds(fs))
    decreases |fs|
  {
    hide ValidField;
    if fs != [] {
      KeptHasAField(Keep(k, fs[0]), fs[1..]);
    }
  }

  lemma SortedKinds(fs: seq<Field>, r: Review)
    requires InOrder(fs)
    requires r.amount.Some? <==> AmountKind in Kinds(fs)
    requires r.account.Some? <==> AddressKind in Kinds(fs)
    requires r.memo.Some? <==> MemoKind in Kinds(fs)
    ensures Kinds(fs) == Order(r)
  {
    hide Kinds;
    var ks := Kinds(fs);
    AscendingKinds(fs);
    AscendingIsBuilt(ks);
  }

  lemma AscendingKinds(fs: seq<Field>)
    requires InOrder(fs)
    ensures Ascending(Kinds(fs))
  {
    hide Kinds;
    AtMostThree(fs);
  }

  function Rank(k: FieldKind): nat {
    match k case AmountKind => 0 case AddressKind => 1 case MemoKind => 2 case UnknownField => 3
  }

  predicate Ascending(ks: seq<FieldKind>) {
    && |ks| <= 3
    && (forall i :: 0 <= i < |ks| ==> !ks[i].UnknownField?)
    && (|ks| > 1 ==> Rank(ks[0]) < Rank(ks[1])) && (|ks| > 2 ==> Rank(ks[1]) < Rank(ks[2]))
  }

  function Build(amount: bool, address: bool, memo: bool): seq<FieldKind> {
    (if amount then [AmountKind] else []) + (if address then [AddressKind] else []) + (if memo then [MemoKind] else [])
  }

  /** An ascending list of kinds is determined by its members. */
  lemma AscendingIsBuilt(ks: seq<FieldKind>)
    requires Ascending(ks)
    ensures ks == Build(AmountKind in ks, AddressKind in ks, MemoKind in ks)
  {
    if |ks| == 1 {
      assert ks == [ks[0]];
    } else if |ks| == 2 {
      assert ks == [ks[0], ks[1]];
    } else if |ks| == 3 {
      assert ks == [AmountKind, AddressKind, MemoKind];
    }
  }

  /** The check on the payload is that it is the normal payload of its own review. */
  lemma NormalMeansNormalOf(o: Operation)
    requires ValidOperation(o)
    ensures ValidToken(TokenOf(ReviewOf(o)))
    ensures Normal(o) <==> o == NormalOf(ReviewOf(o))
  {
    ReviewIsAToken(o);
    var r := ReviewOf(o);
    if Normal(o) {
      NormalIsEncoded(o);
    }
    NormalOfIsNormal(r);
  }

  lemma NormalIsEncoded(o: Operation)
    requires ValidOperation(o) && Normal(o) && ValidToken(TokenOf(ReviewOf(o)))
    ensures o == NormalOf(ReviewOf(o))
  {
    hide OpTypeOf, ValidField, NormalField, ValidToken, NameOf;
    KindsAreOrder(o);
    forall i | 0 <= i < |o.fields| ensures Carries(TokenOf(ReviewOf(o)), o.fields[i]) {
      ReviewCarries(o, i);
    }
    NormalFieldsAreEncoded(TokenOf(ReviewOf(o)), o.fields);
  }

  lemma EncodedFieldIsNormal(t: TokenOperation, kind: FieldKind)
    requires ValidToken(t) && Present(t, kind)
    ensures var f := EncodeField(t, kind, false);
      NormalField(t.op, f) && KindOf(f) == kind
  {
    hide DisplayableText;
    Pow256Values();
  }

  lemma {:induction false} EncodedFieldsAreNormal(t: TokenOperation, order: seq<FieldKind>)
    requires ValidToken(t) && forall i :: 0 <= i < |order| ==> Present(t, order[i])
    ensures NormalFields(t.op, EncodeFields(t, order, false)) && Kinds(EncodeFields(t, order, false)) == order
  {
    hide ValidToken, NormalField, EncodeField, Present;
    if order != [] {
      EncodedFieldIsNormal(t, order[0]);
      EncodedFieldsAreNormal(t, order[1..]);
      var fs := EncodeFields(t, order, false);
      assert fs[1..] == EncodeFields(t, order[1..], false);
      assert order == [order[0]] + order[1..];
    }
  }

  lemma OrderIsSorted(fs: seq<Field>, r: Review)
    requires Kinds(fs) == Order(r)
    ensures InOrder(fs)
  {
    hide Kinds;
    forall i, j | 0 <= i < j < |fs| ensures KindRank(fs[i]) < KindRank(fs[j]) {
      assert KindOf(fs[i]) == Order(r)[i] && KindOf(fs[j]) == Order(r)[j];
    }
  }

  /** The normal payload of a review is valid, in normal form, and has that review. */
  lemma NormalOfIsNormal(r: Review)
    requires ValidToken(TokenOf(r))
    ensures ValidOperation(NormalOf(r)) && ReviewOf(NormalOf(r)) == r && Normal(NormalOf(r))
  {
    hide ValidToken, OpTypeOf, NameOf, ValidFields, KeepAll, EncodeFields;
    var t, order := TokenOf(r), Order(r);
    OrderCovers(r);
    EncodedOperationIsReviewed(t, order, false);
    EncodedFieldsAreNormal(t, order);
    OrderIsSorted(EncodeFields(t, order, false), r);
    NamesAreNames(t.op);
    Pow256Values();
  }

  /**
   Among payloads in normal form the review determines the signed bytes, and the other way round.
   */
  lemma NormalReviewsDetermineBytes(a: Operation, b: Operation)
    requires ValidOperation(a) && ValidOperation(b) && Normal(a) && Normal(b)
    ensures ReviewOf(a) == ReviewOf(b) <==> Print(a) == Print(b)
  {
    hide Normal, ValidOperation, Print, ReviewOf, NormalOf, TokenOf;
    NormalMeansNormalOf(a);
    NormalMeansNormalOf(b);
    if Print(a) == Print(b) {
      PrintInjective(a, b);
    }
  }

  // ---- Every review is shared ----

  lemma NameLength(text: seq<byte>)
    requires |text| <= 23
    ensures ValidStr(Name(text)) && |PrintStr(TEXT, Name(text))| == 1 + |text|
  {
  }

  lemma FieldLength(t: TokenOperation, kind: FieldKind)
    requires ValidToken(t) && Present(t, kind)
    ensures var f := EncodeField(t, kind, false);
      ValidField(f) && |PrintField(f)| <= match kind case AmountKind => 19 case AddressKind => 49 case _ => 271
  {
    EncodedFieldIsValid(t, kind, false);
    hide FieldKindOf, DisplayableText;
    Pow256Values();
    match kind
    case AmountKind => NameLength(NAME_AMOUNT);
    case AddressKind => NameLength(AddressName(t.op)); AddressLength(t.account.value);
    case MemoKind => NameLength(NAME_MEMO);
  }

  lemma AddressLength(account: seq<byte>)
    requires |account| == ADDRESS_LENGTH
    ensures ValidAddress(EncodeAddress(account, false)) && |PrintAddress(EncodeAddress(account, false))| == 39
  {
    EncodedAddressIsValid(account, false);
    Pow256Values();
    var es := EncodeAddress(account, false).entries;
    assert es[1..] == [];
    assert |PrintEntry(es[0])| == 35;
    assert PrintEntries(es) == PrintEntry(es[0]) + PrintEntries([]);
  }

  function FieldsLength(order: seq<FieldKind>): nat {
    if order == [] then 0
    else (match order[0] case AmountKind => 19 case AddressKind => 49 case _ => 271) + FieldsLength(order[1..])
  }

  lemma {:induction false} EncodedLength(t: TokenOperation, order: seq<FieldKind>)
    requires ValidToken(t) && forall i :: 0 <= i < |order| ==> Present(t, order[i])
    ensures var fs := EncodeFields(t, order, false);
      ValidFields(fs) && |PrintFields(fs)| <= FieldsLength(order)
  {
    hide ValidToken, ValidField, EncodeField, PrintField, Present;
    if order != [] {
      FieldLength(t, order[0]);
      EncodedLength(t, order[1..]);
      assert EncodeFields(t, order, false)[1..] == EncodeFields(t, order[1..], false);
    }
  }

  lemma OrderLength(r: Review)
    ensures FieldsLength(Order(r)) <= 339 && |Order(r)| <= 3
  {
    var a, b, c := if r.amount.Some? then [AmountKind] else [], if r.account.Some? then [AddressKind] else [],
      if r.memo.Some? then [MemoKind] else [];
    LengthAdds(a, b);
    LengthAdds(a + b, c);
    assert [AmountKind][1..] == [] && [AddressKind][1..] == [] && [MemoKind][1..] == [];
  }

  lemma {:induction false} LengthAdds(x: seq<FieldKind>, y: seq<FieldKind>)
    ensures FieldsLength(x + y) == FieldsLength(x) + FieldsLength(y)
  {
    if x == [] {
      assert x + y == y;
    } else {
      assert (x + y)[1..] == x[1..] + y;
      LengthAdds(x[1..], y);
    }
  }

  /** The normal payload leaves room to spare in the 512 bytes a payload may have. */
  lemma NormalIsShort(r: Review)
    requires ValidToken(TokenOf(r))
    ensures ValidOperation(NormalOf(r)) && |Print(NormalOf(r))| < APP_PLT_CBOR_MAX
  {
    hide ValidToken, OpTypeOf, NameOf, ValidFields, KeepAll, EncodeFields, PrintFields, FieldsLength, Normal;
    OrderCovers(r);
    NormalOfIsNormal(r);
    EncodedLength(TokenOf(r), Order(r));
    OrderLength(r);
    NamesAreNames(r.op);
    NameLength(NameOf(r.op));
  }

  /** The same operation with the length of its list written in a byte of its own, or the other way round. */
  function Widened(o: Operation): Operation {
    o.(list := if o.list == One then Inline else One)
  }

  lemma WidenedIsValid(o: Operation)
    requires ValidOperation(o)
    ensures ValidOperation(Widened(o)) && ReviewOf(Widened(o)) == ReviewOf(o) && |Print(Widened(o))| <= |Print(o)| + 1
  {
    hide OpTypeOf, ValidFields, KeepAll;
    Pow256Values();
  }

  /**
   No review determines the payload among all that the device accepts: every payload it accepts has
   another one, of at most 512 bytes, that is accepted and shown the same.
   */
  lemma EveryReviewIsShared(o: Operation) returns (other: Operation)
    requires ValidOperation(o)
    ensures ValidOperation(other) && ReviewOf(other) == ReviewOf(o)
    ensures |Print(other)| <= APP_PLT_CBOR_MAX && Print(other) != Print(o)
    ensures ParsePlt(Print(other)) == Parsed(other)
  {
    hide ValidOperation, Normal, Print, ReviewOf, TokenOf, NormalOf, ParsePlt;
    NormalMeansNormalOf(o);
    NormalOfIsNormal(ReviewOf(o));
    NormalIsShort(ReviewOf(o));
    other := NormalOf(ReviewOf(o));
    if other == o {
      WidenedIsValid(o);
      other := Widened(o);
    }
    if Print(other) == Print(o) {
      PrintInjective(other, o);
    }
    ParseIsComplete(other);
  }
}
