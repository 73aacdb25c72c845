/** The layout of the signed transactions in numbers: kinds, offsets, sizes, limits and orders, spelled out. */
module Layouts {
  import opened Bytes
  import opened CborBlob
  import opened CredentialGrammar
  import opened DerivationPath
  import opened Options
  import opened Status
  import opened TxHash
  import B = Baker
  import C = Contract
  import D = ContractReview
  import F = CredentialFlow
  import H = PltParser
  import P = PltFlow
  import R = CredentialRuns
  import S = Schedule
  import T = ScheduleRuns
  import V = VerifyAddress

  // ---- INS 0x07 and 0x08 ----

  /**
   A contract flow opens exactly on the path, the 60-byte header, kind 1 or 2, and the fixed fields:
   the amount and the 32-byte module reference, or the amount, the index and the sub-index. What is
   behind them is ignored.
   */
  lemma ContractOpens(which: C.Which, cdata: seq<byte>, path: Path, head: seq<byte>)
    ensures C.Begin(which, cdata) == C.Result(C.NameFirst(path, head), Ack)
       <==> && SignsAt(cdata, path) && |head| == (if which.InitContract? then 60 + 1 + 8 + 32 else 60 + 1 + 8 + 8 + 8)
            && head[60] == (if which.InitContract? then 1 else 2)
            && |cdata| >= 1 + 4 * |path.nodes| + |head| && cdata[1 + 4 * |path.nodes|..][..|head|] == head
  {
    hide SignsAt, StartTransaction;
    var n := |head| - 61;
    var start := StartTransaction(cdata, which.Kind());
    if start.Started? {
      StartIff(cdata, which.Kind(), start.path, start.transcript, start.rest);
      var from := 1 + 4 * |start.path.nodes|;
      PathIsInData(cdata, start.path);
      assert from + 61 + |start.rest| == |cdata| by { Lengths(cdata, from, start.transcript, start.rest); }
      assert cdata[from..] == start.transcript + start.rest by { Lengths(cdata, from, start.transcript, start.rest); }
      if |start.rest| >= which.FixedFields() {
        assert cdata[from..][..61 + which.FixedFields()] == start.transcript + start.rest[..which.FixedFields()];
      }
    }
    if SignsAt(cdata, path) && n >= 0 && |cdata| >= 1 + 4 * |path.nodes| + |head| && cdata[1 + 4 * |path.nodes|..][..|head|] == head
       && head[60] == which.Kind() {
      var from := 1 + 4 * |path.nodes|;
      var rest := cdata[from + 61..];
      assert cdata == cdata[..from] + head[..61] + rest;
      StartIff(cdata, which.Kind(), path, head[..61], rest);
      assert head == head[..61] + rest[..n];
    }
  }

  lemma PathIsInData(cdata: seq<byte>, path: Path)
    requires SignsAt(cdata, path)
    ensures 1 + 4 * |path.nodes| <= |cdata|
  {
  }

  lemma Lengths(cdata: seq<byte>, from: nat, a: seq<byte>, b: seq<byte>)
    requires from <= |cdata| && cdata == cdata[..from] + a + b
    ensures from + |a| + |b| == |cdata| && cdata[from..] == a + b
  {
  }

  /** The name row, and what stands in it for a name of 256 bytes or more; the digest is of name and parameters. */
  lemma ContractRows(path: Path, head: seq<byte>, name: seq<byte>, params: seq<byte>)
    ensures C.NameRow(name) == if |name| < 256 then name else Ascii("(too long to display - see hash)")
    ensures C.Digested(C.Review(path, head, name, params)) == name + params
  {
    assert C.TOO_LONG == Ascii("(too long to display - see hash)");
  }

  // ---- INS 0x03 and 0x34 ----

  lemma {:induction false} PairsAt(pairs: seq<S.Pair>, k: nat)
    requires k < |pairs|
    ensures var s := S.PairBytes(pairs);
      FromBe(s[16 * k..16 * k + 8]) == pairs[k].timestamp && FromBe(s[16 * k + 8..16 * k + 16]) == pairs[k].amount
  {
    hide FromBe, ToBe;
    var n := |pairs| - 1;
    var before, last := S.PairBytes(pairs[..n]), pairs[n];
    assert S.PairBytes(pairs) == before + (ToBe(last.timestamp, 8) + ToBe(last.amount, 8));
    if k < n {
      PairsAt(pairs[..n], k);
      assert S.PairBytes(pairs)[16 * k..16 * k + 8] == before[16 * k..16 * k + 8];
      assert S.PairBytes(pairs)[16 * k + 8..16 * k + 16] == before[16 * k + 8..16 * k + 16];
    } else {
      Pow256Values();
      FromBeToBe(last.timestamp, 8);
      FromBeToBe(last.amount, 8);
      assert S.PairBytes(pairs)[16 * k..16 * k + 8] == ToBe(last.timestamp, 8);
      assert S.PairBytes(pairs)[16 * k + 8..16 * k + 16] == ToBe(last.amount, 8);
    }
  }

  /**
   What is signed of a scheduled transfer: a header of 60 bytes, kind 19, or 24 with a memo, the
   recipient, the memo behind its length of two bytes, the number of pairs, and the pairs as the host
   sent them in packets of fifteen: eight bytes of release time, eight of amount.
   */
  lemma ScheduleLayout(s: S.State, withMemo: bool, events: seq<S.Event>)
    requires S.Run(withMemo, events) == Some(s) && s.screen.SignScreen?
    ensures |s.start| == 61 && s.start[60] == (if s.withMemo then 24 else 19) && |s.to| == 32
    ensures 1 <= |s.shown| <= 255 && s.packets == (|s.shown| + 14) / 15 && |s.wire| == 16 * |s.shown|
    ensures s.hash == s.start + s.to + (if s.withMemo then ToBe(|s.memo|, 2) + s.memo else []) + [|s.shown|] + s.wire
    ensures forall k :: 0 <= k < |s.shown| ==>
              && FromBe(s.wire[16 * k..16 * k + 8]) == s.shown[k].timestamp
              && FromBe(s.wire[16 * k + 8..16 * k + 16]) == s.shown[k].amount
  {
    hide S.Run, S.PairBytes, ToBe, FromBe, ParseBlob;
    S.SignedScheduleIsComplete(s, withMemo, events);
    assert S.Inv(s);
    assert S.Count(s.declared) == [s.declared] by { OneByte(s.declared); }
    forall k | 0 <= k < |s.shown|
      ensures FromBe(s.wire[16 * k..16 * k + 8]) == s.shown[k].timestamp
      ensures FromBe(s.wire[16 * k + 8..16 * k + 16]) == s.shown[k].amount
    {
      PairsAt(s.shown, k);
    }
  }

  lemma OneByte(n: nat)
    requires n < 256
    ensures ToBe(n, 1) == [n]
  {
    assert ToBe(n, 1) == ToBe(n / 256, 0) + [n % 256];
  }

  // ---- INS 0x18 ----

  /** A field, if there is one. */
  function Maybe(f: B.Field): seq<byte> {
    match f case None => [] case Some(value) => value
  }

  function Bit(f: B.Field, weight: nat): nat {
    match f case None => 0 case Some(_) => weight
  }

  /** The bitmap of the declared fields. */
  function Bits(c: B.Config): nat {
    Bit(c.capital, 1) + Bit(c.restake, 2) + Bit(c.open, 4) + Bit(c.keys, 8) + Bit(c.url, 16) + Bit(c.fee, 32)
    + Bit(c.reward, 64) + Bit(c.finalization, 128) + Bit(c.suspended, 256)
  }

  /** The declared fields in order. */
  function Fields(c: B.Config): seq<byte> {
    Maybe(c.capital) + Maybe(c.restake) + Maybe(c.open) + Maybe(c.keys) + Maybe(c.aggregation)
    + (if c.url.Some? then ToBe(|c.url.value|, 2) + c.url.value else [])
    + (Maybe(c.fee) + Maybe(c.reward) + Maybe(c.finalization)) + Maybe(c.suspended)
  }

  /**
   What is signed of a validator configuration: a header of 60 bytes, kind 25, two bytes of bitmap, and
   the fields it declares, in this order and within these limits.
   */
  lemma ConfigurationLayout(s: B.State, events: seq<B.Event>)
    requires B.Run(events) == Some(s) && s.Live? && s.stage.End?
    ensures |s.head| == 61 && s.head[60] == 25
    ensures B.Transcript(s) == s.head + ToBe(Bits(s.got), 2) + Fields(s.got)
    ensures var c := s.got;
      && (c.capital.Some? ==> |c.capital.value| == 8) && (c.restake.Some? ==> c.restake.value in {[0], [1]})
      && (c.open.Some? ==> c.open.value in {[0], [1], [2]}) && (c.suspended.Some? ==> c.suspended.value in {[0], [1]})
      && (c.keys.Some? <==> c.aggregation.Some?) && (c.keys.Some? ==> |c.keys.value| == 192 && |c.aggregation.value| == 160)
      && (c.url.Some? ==> |c.url.value| <= 2048 && DisplayableText(c.url.value))
      && (forall f :: f in {c.fee, c.reward, c.finalization} && f.Some? ==> |f.value| == 4 && FromBe(f.value) <= 100000)
  {
    hide B.Run, FromBe, ToBe, DisplayableText, B.Transcript, B.Serialize, B.ValidConfig, Bits, Fields;
    B.SignedConfigurationIsComplete(s, events);
    HeadIsKind(s, events);
    SerializeLayout(s.got);
    FieldLimits(s.got);
    assert s.head + (ToBe(Bits(s.got), 2) + Fields(s.got)) == s.head + ToBe(Bits(s.got), 2) + Fields(s.got);
  }

  lemma FieldLimits(c: B.Config)
    requires B.ValidConfig(c)
    ensures (c.capital.Some? ==> |c.capital.value| == 8) && (c.restake.Some? ==> c.restake.value in {[0], [1]})
    ensures (c.open.Some? ==> c.open.value in {[0], [1], [2]}) && (c.suspended.Some? ==> c.suspended.value in {[0], [1]})
    ensures (c.keys.Some? ==> |c.keys.value| == 192) && (c.aggregation.Some? ==> |c.aggregation.value| == 160)
    ensures c.url.Some? ==> |c.url.value| <= 2048 && DisplayableText(c.url.value)
    ensures forall f :: f in {c.fee, c.reward, c.finalization} && f.Some? ==> |f.value| == 4 && FromBe(f.value) <= 100000
  {
    hide FromBe, DisplayableText;
    assert c.restake.Some? ==> c.restake.value == [c.restake.value[0]];
    assert c.open.Some? ==> c.open.value == [c.open.value[0]];
    assert c.suspended.Some? ==> c.suspended.value == [c.suspended.value[0]];
  }

  /**
   The digest shown of the three keys is of the keys alone: two of 32 bytes, each before its proof of
   64, and one of 96 bytes before its proof.
   */
  lemma KeysDigest(c: B.Config, signature: seq<byte>, proof: seq<byte>, election: seq<byte>, other: seq<byte>,
                   aggregation: seq<byte>, last: seq<byte>)
    requires |signature| == |election| == 32 && |proof| == |other| == |last| == 64 && |aggregation| == 96
    requires c.keys == Some(signature + proof + election + other) && c.aggregation == Some(aggregation + last)
    ensures B.Digested(c) == signature + election + aggregation
  {
    var keys := signature + proof + election + other;
    assert keys[..32] == signature && keys[96..128] == election && (aggregation + last)[..96] == aggregation;
  }

  lemma {:induction false} HeadIsKind(s: B.State, events: seq<B.Event>)
    requires B.Run(events) == Some(s)
    ensures s.Live? ==> |s.head| == 61 && s.head[60] == 25
    decreases |events|
  {
    hide B.Inv, B.Step, B.Transcript;
    if events != [] {
      var n := |events| - 1;
      var t := B.Run(events[..n]).value;
      HeadIsKind(t, events[..n]);
      match events[n]
      case Send(p) => StepKeepsKind(t, p);
      case Approve =>
    }
  }

  lemma StepKeepsKind(t: B.State, p: B.Packet)
    requires B.Inv(t)
    ensures var s := B.Step(t, p).next;
      s.Live? ==> if t.Live? then s.head == t.head else |s.head| == 61 && s.head[60] == 25
  {
    hide B.Inv, FromBe, B.CutFirst, B.CutRates, DisplayableText, StartTransaction, B.FlagsOfBitmap;
  }

  lemma SerializeLayout(c: B.Config)
    ensures B.Serialize(c) == ToBe(Bits(c), 2) + Fields(c)
  {
    hide ToBe;
  }

  // ---- INS 0x31 ----

  /**
   What is signed of a credential update: a header of 60 bytes, kind 20, the number of new credentials
   and these, the number of removed ones and their 48-byte ids, and the threshold.
   */
  lemma UpdateLayout(s: F.State, events: seq<F.Event>)
    requires R.Run(events) == Some(s) && s.pending.SignUp?
    ensures |s.head| == 61 && s.head[60] == 20
    ensures s.hash == s.head + [|s.added|] + CredentialsBytes(s.added) + ([|s.removed|] + Flatten(s.removed)) + [s.threshold]
    ensures |s.added| <= 255 && ValidCredentials(s.added) && |s.removed| <= 255 && forall id :: id in s.removed ==> |id| == 48
  {
    hide R.Run, CredentialsBytes, Flatten, ValidCredentials, Screens, F.Inv;
    R.SignedUpdateIsReviewed(s, events);
    R.RunsKeepInv(events);
    SigningIsNotStart(s);
    HeadIsUpdate(s, events);
    OneByte(|s.added|);
    OneByte(|s.removed|);
    Regroup(s.head, [|s.added|], CredentialsBytes(s.added), [|s.removed|] + Flatten(s.removed), [s.threshold]);
  }

  lemma Regroup(a: seq<byte>, b: seq<byte>, c: seq<byte>, d: seq<byte>, e: seq<byte>)
    ensures a + (b + c + d + e) == a + b + c + d + e
  {
  }

  lemma SigningIsNotStart(s: F.State)
    requires F.Inv(s)
    ensures s.pending.SignUp? ==> !s.phase.Start?
    ensures s.phase.Start? ==> s.pending.Nothing?
  {
  }

  lemma {:induction false} HeadIsUpdate(s: F.State, events: seq<F.Event>)
    requires R.Run(events) == Some(s) && !s.phase.Start?
    ensures |s.head| == 61 && s.head[60] == 20
    decreases |events|
  {
    hide F.Packet, F.Approve, F.Inv;
    if events != [] {
      var n := |events| - 1;
      var t := R.Run(events[..n]).value;
      R.RunsKeepInv(events[..n]);
      SigningIsNotStart(t);
      if !t.phase.Start? {
        HeadIsUpdate(t, events[..n]);
      }
      match events[n]
      case Send(p1, p2, cdata) => PacketKeepsHead(t, p1, p2, cdata);
      case Accept => ApproveKeepsHead(t);
    }
  }

  lemma PacketKeepsHead(t: F.State, p1: uint8, p2: uint8, cdata: Data)
    ensures var r := F.Packet(t, p1, p2, cdata);
      r.reply.Open() ==> if t.phase.Start? then |r.next.head| == 61 && r.next.head[60] == 20 else r.next.head == t.head
  {
    hide FromBe, DisplayableText, StartTransaction, Provider;
  }

  lemma ApproveKeepsHead(t: F.State)
    ensures F.Approve(t).reply.Open() ==> F.Approve(t).next.head == t.head
  {
  }

  /**
   A credential: an index, its 34-byte keys behind one byte of count, 54 bytes of details, its 100-byte
   revokers behind two, 6 bytes of dates, its attributes behind two and its proofs behind four; the
   identity provider, below a thousand million, stands in the details behind 49 bytes.
   */
  lemma CredentialLayout(c: Credential)
    requires ValidCredential(c)
    ensures CredentialBytes(c)
         == [c.index] + ([|c.keys|] + Flatten(c.keys)) + c.details + (ToBe(|c.revokers|, 2) + Flatten(c.revokers)) + c.dates
            + (ToBe(|c.attributes|, 2) + AttributesBytes(c.attributes)) + (ToBe(|c.proofs|, 4) + c.proofs)
    ensures 1 <= |c.keys| <= 255 && (forall key :: key in c.keys ==> |key| == 34) && |c.details| == 54
    ensures 1 <= |c.revokers| <= 65535 && (forall revoker :: revoker in c.revokers ==> |revoker| == 100) && |c.dates| == 6
    ensures Provider(c.details) == FromBe(c.details[49..53]) < 1_000_000_000
    ensures |c.attributes| <= 65535
         && forall a :: a in c.attributes ==>
              |a.value| <= 255 && DisplayableText(a.value) && AttributeBytes(a) == [a.tag, |a.value|] + a.value
  {
    hide ToBe, FromBe, DisplayableText;
    OneByte(|c.keys|);
    forall key | key in c.keys ensures |key| == 34 {
      var i :| 0 <= i < |c.keys| && c.keys[i] == key;
    }
    forall revoker | revoker in c.revokers ensures |revoker| == 100 {
      var i :| 0 <= i < |c.revokers| && c.revokers[i] == revoker;
    }
    forall a | a in c.attributes
      ensures |a.value| <= 255 && DisplayableText(a.value) && AttributeBytes(a) == [a.tag, |a.value|] + a.value
    {
      assert ValidAttribute(a);
      OneByte(|a.value|);
    }
  }

  // ---- Memos ----

  /** A memo that is accepted is an integer, or a displayable text of at most 255 bytes; it has at most 257 bytes. */
  lemma MemoLayout(memo: seq<byte>)
    requires ParseBlob(memo).Accepted?
    ensures |memo| <= 257
    ensures match ParseBlob(memo).item
      case UnsignedInt(n) => n <= 0xFFFF_FFFF_FFFF_FFFF
      case NegativeInt(n) => n <= 0xFFFF_FFFF_FFFF_FFFF
      case Text(text) => |text| <= 255 && DisplayableText(text)
  {
    hide ParseBlob, DisplayableText, Encode;
    AcceptedExactly(memo, ParseBlob(memo).item);
    T.EncodingIsShort(ParseBlob(memo).item);
  }

  /** And every such text is accepted. */
  lemma TextMemoIsAccepted(text: seq<byte>)
    requires |text| <= 255 && DisplayableText(text)
    ensures var memo := (if |text| < 24 then [0x60 + |text|] else [0x78, |text|]) + text;
      ParseBlob(memo) == Accepted(Text(text))
  {
    hide ParseBlob, DisplayableText;
    if |text| > 23 {
      OneByte(|text|);
      assert Encode(Text(text)) == [0x78, |text|] + text;
    } else {
      assert Encode(Text(text)) == [0x60 + |text|] + text;
    }
    AcceptedExactly(Encode(Text(text)), Text(text));
  }

  // ---- Status words ----

  /** The status words of refusals and throws, no two of them alike. */
  lemma StatusWords()
    ensures ERROR_INVALID_STATE == 0x6B01 && ERROR_INVALID_PATH == 0x6B02 && ERROR_INVALID_PARAM == 0x6B03
    ensures ERROR_INVALID_TRANSACTION == 0x6B04 && ERROR_UNSUPPORTED_CBOR == 0x6B05 && ERROR_BUFFER_OVERFLOW == 0x6B06
    ensures C.ERROR_INVALID_NAME_LENGTH == 0x6B0A && C.ERROR_INVALID_PARAMS_LENGTH == 0x6B0B
    ensures V.ERROR_TRUSTED_NAME_MISMATCH == 0x6B0C && H.ERROR_PLT_CBOR_ERROR == 0x6B0D
    ensures P.ERROR_PLT_BUFFER_ERROR == 0x6B0E && P.ERROR_PLT_DATA_ERROR == 0x6B0F
    ensures SWO_SUCCESS == 0x9000 && SWO_INCORRECT_DATA == 0x6A80 && SWO_WRONG_P1_P2 == 0x6B00 && SWO_WRONG_DATA_LENGTH == 0x6700
  {
  }
}
