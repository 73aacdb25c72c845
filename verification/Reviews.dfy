/** Every transaction of the signing flows brings up its review in the whole application. */
module Reviews {
  import opened AppMachines
  import opened AppRuns
  import opened Bytes
  import opened CredentialGrammar
  import opened DerivationPath
  import opened Flows
  import opened Latch
  import opened Options
  import opened PltParser
  import opened Reach
  import opened TxHash
  import B = Baker
  import C = Contract
  import D = ContractReview
  import E = CborBlob
  import F = CredentialFlow
  import G = PltGrammar
  import P = PltFlow
  import R = CredentialRuns
  import S = Schedule
  import T = ScheduleRuns
  import W = PltWire

  // ---- INS 0x07 and 0x08 ----

  function ContractInputs(which: C.Which, packets: seq<C.Packet>): (r: seq<Input>)
    ensures |r| == |packets|
  {
    seq(|packets|, i requires 0 <= i < |packets| =>
          Got(i == 0, Command(0xE0, ContractIns(which), packets[i].p1, 0, packets[i].cdata)))
  }

  lemma ContractInputsAreSent(which: C.Which, packets: seq<C.Packet>)
    requires packets != []
    ensures var inputs := ContractInputs(which, packets);
      && Sent(ContractIns(which), inputs) && DataInputs(inputs) && (forall i :: 0 <= i < |inputs| ==> inputs[i].Got?)
      && ContractPackets(inputs) == packets
  {
  }

  /**
   Initialising or updating a contract: a displayable name and parameters, behind a well-formed initial
   packet, bring up a review that signs the header and fixed fields, the name and the parameters, each
   of the two behind its length.
   */
  lemma ContractIsReviewed<O(!new)>(h: Handlers<Union<O>, Signing>, a: App<Union<O>, Signing>, which: C.Which, first: Data,
                                   name: seq<byte>, params: seq<byte>)
    requires RunsFlows(h) && Idle(a) && C.Begin(which, first).next.NameFirst? && D.Admissible(name, params)
    ensures var s := C.Begin(which, first).next;
      Leads(h, a, ContractInputs(which, D.PacketsOf(first, name, params)), ContractIns(which),
            ContractUnion(C.Review(s.path, s.head, name, params)),
            Signing(s.path, s.head + (ToBe(|name|, 2) + name) + (ToBe(|params|, 2) + params)), true)
  {
    hide RunsFlows, C.Begin, D.Admissible, C.Run, Leads, D.PacketsOf;
    var s := C.Begin(which, first).next;
    var packets, t := D.PacketsOf(first, name, params), C.Review(s.path, s.head, name, params);
    D.EveryAdmissibleIsReviewed(which, first, name, params);
    assert packets != [] by { FirstPacket(first, name, params); }
    ContractInputsAreSent(which, packets);
    ContractRunIsReached(h, a, which, ContractInputs(which, packets), t);
  }

  lemma FirstPacket(first: Data, name: seq<byte>, params: seq<byte>)
    ensures D.PacketsOf(first, name, params) != []
  {
  }

  // ---- INS 0x27 ----

  function PltInputs(packets: seq<P.Packet>): (r: seq<Input>)
    requires forall i :: 0 <= i < |packets| ==> |packets[i].cdata| <= UINT8_MAX
    ensures |r| == |packets|
  {
    seq(|packets|, i requires 0 <= i < |packets| =>
          Got(i == 0, Command(0xE0, 0x27, packets[i].p1, packets[i].p2, packets[i].cdata)))
  }

  function ContPackets(chunks: seq<seq<byte>>): (r: seq<P.Packet>)
    ensures |r| == |chunks|
  {
    seq(|chunks|, i requires 0 <= i < |chunks| => P.Packet(1, 0, chunks[i]))
  }

  /** INIT, then the payload in chunks. */
  function PltPacketsOf(p2: uint8, first: Data, chunks: seq<seq<byte>>): (r: seq<P.Packet>)
    requires P.Chunks(chunks)
    ensures |r| == 1 + |chunks| && forall i :: 0 <= i < |r| ==> 1 <= |r[i].cdata| <= UINT8_MAX
  {
    [P.Packet(0, p2, first)] + ContPackets(chunks)
  }

  lemma {:induction false} FeedIsARun(packets: seq<P.Packet>, s: P.State, chunks: seq<seq<byte>>)
    requires P.Run(packets) == Some(s) && s.review.None? && chunks != [] && P.Chunks(chunks) && P.Feed(s, chunks).1.Sign?
    requires s.total == |s.received| + |Flatten(chunks)|
    ensures P.Run(packets + ContPackets(chunks)) == Some(P.Feed(s, chunks).0)
    decreases |chunks|
  {
    hide P.Cont, P.Run;
    var p := P.Packet(1, 0, chunks[0]);
    EarlyIsNotSigned(s, chunks[0]);
    var r := P.Cont(s, 0, chunks[0]);
    PltExtended(packets, s, p);
    if |chunks| == 1 {
      assert ContPackets(chunks) == [p];
    } else {
      assert |Flatten(chunks)| == |chunks[0]| + |Flatten(chunks[1..])|;
      P.FlattenIsLong(chunks[1..]);
      FeedIsARun(packets + [p], r.0, chunks[1..]);
      assert packets + ContPackets(chunks) == packets + [p] + ContPackets(chunks[1..]);
    }
  }

  /** Only the packet that completes the payload is answered with a review. */
  lemma EarlyIsNotSigned(s: P.State, cdata: seq<byte>)
    requires s.review.None?
    ensures var (t, reply) := P.Cont(s, 0, cdata);
      && !reply.Continue? && (reply.Sign? ==> |s.received| + |cdata| >= s.total)
      && (reply.Ack? ==> t.review.None? && t.total == s.total && t.received == s.received + cdata)
  {
    hide ParsePlt;
  }

  lemma PltInputsAreSent(packets: seq<P.Packet>)
    requires packets != [] && forall i :: 0 <= i < |packets| ==> 1 <= |packets[i].cdata| <= UINT8_MAX
    ensures var inputs := PltInputs(packets);
      Sent(0x27, inputs) && (forall i :: 0 <= i < |inputs| ==> inputs[i].Got?) && PltPackets(inputs) == packets
  {
    var inputs := PltInputs(packets);
    forall i | 0 <= i < |packets| ensures inputs[i].Got? && PltPackets(inputs)[i] == packets[i] && inputs[i].c.data != [] {
    }
  }

  /**
   A token operation, spelled in at most 512 bytes, in any chunks: they bring up a review of that
   operation, with the fee estimate, that signs the header, kind 27, the token, the length and those
   bytes.
   */
  lemma OperationIsReviewed<O(!new)>(h: Handlers<Union<O>, Signing>, a: App<Union<O>, Signing>, t: P.TokenOperation,
                                    order: seq<G.FieldKind>, withInfo: bool, p2: uint8, first: Data, path: Path, header: seq<byte>,
                                    id: seq<byte>, fee: seq<byte>, chunks: seq<seq<byte>>)
    returns (s: P.State)
    requires RunsFlows(h) && Idle(a) && P.ValidToken(t) && P.Covers(t, order) && p2 <= 1
    requires 1 <= |id| <= 128 && DisplayableText(id) && |fee| == (if p2 == 1 then 8 else 0)
    requires |W.Spelled(t, order, withInfo)| <= 512
    requires W.Opens(first, path, header, id, |W.Spelled(t, order, withInfo)|, fee)
    requires chunks != [] && P.Chunks(chunks) && Flatten(chunks) == W.Spelled(t, order, withInfo)
    ensures var payload := W.Spelled(t, order, withInfo);
      Leads(h, a, PltInputs(PltPacketsOf(p2, first, chunks)), 0x27, PltUnion(s),
            Signing(path, header + [27] + [|id|] + id + ToBe(|payload|, 4) + payload), true)
    ensures s.review == Some(P.Review(t.op, t.amount, t.account, t.memo)) && s.tokenId == id
    ensures s.fee == if p2 == 1 && FromBe(fee) != 0xFFFF_FFFF_FFFF_FFFF then Some(FromBe(fee)) else None
  {
    hide RunsFlows, P.Step, P.Feed, P.Run, W.Spelled, W.Opens, P.ValidToken, P.Covers, P.Chunks, ToBe, FromBe, DisplayableText, Leads,
         Flatten;
    W.SpelledIsSigned(t, order, withInfo, P.FRESH, p2, first, path, header, id, fee, chunks);
    var init := P.Packet(0, p2, first);
    var s0 := P.Step(P.FRESH, 0, p2, first).0;
    NothingSent();
    PltExtended([], P.FRESH, init);
    assert [] + [init] == [init];
    InitHasNoReview(p2, first);
    FeedIsARun([init], s0, chunks);
    s := P.Feed(s0, chunks).0;
    var packets := PltPacketsOf(p2, first, chunks);
    PltInputsAreSent(packets);
    PltRunIsReached(h, a, PltInputs(packets), s);
    assert s.review.Some? && OfPlt<O>(s) == PltUnion(s) by { ReviewedIsNotWiped<O>(s); }
  }

  lemma NothingSent()
    ensures P.Run([]) == Some(P.FRESH) && P.FRESH.review.None? && P.FRESH.stage.Initial?
  {
  }

  lemma InitHasNoReview(p2: uint8, cdata: seq<byte>)
    ensures P.Step(P.FRESH, 0, p2, cdata).1.Ack? ==> P.Step(P.FRESH, 0, p2, cdata).0.review.None?
  {
    hide StartTransaction, P.ReadTail;
  }

  lemma ReviewedIsNotWiped<O>(s: P.State)
    requires s.review.Some?
    ensures OfPlt<O>(s) == PltUnion(s)
  {
  }

  // ---- INS 0x18 ----

  function BakerInputs(events: seq<B.Event>): (r: seq<Input>)
    requires B.AllCarried(events)
    ensures |r| == |events|
  {
    seq(|events|, i requires 0 <= i < |events| =>
          match events[i] case Send(p) => Got(i == 0, Command(0xE0, 0x18, p.p1, 0, p.cdata)) case Approve => Approved)
  }

  lemma BakerInputsAreSent(events: seq<B.Event>)
    requires events != [] && events[0].Send? && B.AllCarried(events)
    ensures Sent(0x18, BakerInputs(events)) && BakerEvents(BakerInputs(events)) == events
  {
    var inputs := BakerInputs(events);
    forall i | 0 <= i < |events| ensures BakerEvents(inputs)[i] == events[i] {
    }
  }

  /**
   Configuring a validator: any valid configuration with at least one field, its URL in any chunks,
   brings up a last review that signs the header and exactly its serialisation.
   */
  lemma ConfigurationIsReviewed<O(!new)>(h: Handlers<Union<O>, Signing>, a: App<Union<O>, Signing>, path: Path, head: seq<byte>,
                                        c: B.Config, chunks: seq<seq<byte>>, first: Data)
    returns (events: seq<B.Event>)
    requires RunsFlows(h) && Idle(a)
    requires B.Sendable(c, chunks) && c != B.NOTHING && forall i :: 0 <= i < |chunks| ==> |chunks[i]| <= UINT8_MAX
    requires var start := StartTransaction(first, B.KIND_CONFIGURE_BAKER);
      start.Started? && start.path == path && start.transcript == head && start.rest == B.BitmapBytes(B.FlagsOf(c))
    ensures var has := B.FlagsOf(c);
      B.Sends(events) == [B.Packet(0, first)] + B.PacketsFrom(if has.AnyFirst() then B.FirstBatch else B.AfterKeys(has), c, chunks)
    ensures B.AllCarried(events)
    ensures Leads(h, a, BakerInputs(events), 0x18, BakerUnion(B.Awaiting(path, head, c, B.End)),
                  Signing(path, head + B.Serialize(c)), true)
  {
    hide RunsFlows, B.Run, B.Sends, B.PacketsFrom, B.Sendable, B.Transcript, B.Serialize, Leads, StartTransaction, B.BitmapBytes,
         B.AllCarried;
    events := B.EveryConfigurationHasARun(path, head, c, chunks, first);
    BakerInputsAreSent(events);
    BakerRunIsReached(h, a, BakerInputs(events), B.Awaiting(path, head, c, B.End));
  }

  // ---- INS 0x03 and 0x34 ----

  function ScheduleInputs(withMemo: bool, events: seq<S.Event>): (r: seq<Input>)
    requires T.Carried(events)
    ensures |r| == |events|
  {
    seq(|events|, i requires 0 <= i < |events| =>
          match events[i]
          case Packet(p1, p2, cdata) => Got(i == 0, Command(0xE0, ScheduleIns(withMemo), p1, p2, cdata))
          case Approve => Approved)
  }

  lemma ScheduleInputsAreSent(withMemo: bool, events: seq<S.Event>)
    requires events != [] && events[0].Packet? && T.Carried(events)
    ensures Sent(ScheduleIns(withMemo), ScheduleInputs(withMemo, events))
    ensures ScheduleEvents(ScheduleInputs(withMemo, events)) == events
  {
    var inputs := ScheduleInputs(withMemo, events);
    forall i | 0 <= i < |events| ensures ScheduleEvents(inputs)[i] == events[i] {
    }
  }

  lemma ScheduleStateIsReached<O(!new)>(h: Handlers<Union<O>, Signing>, a: App<Union<O>, Signing>, withMemo: bool,
                                       events: seq<S.Event>, s: S.State)
    requires RunsFlows(h) && Idle(a) && events != [] && events[0].Packet? && T.Carried(events)
    requires S.Run(withMemo, events) == Some(s) && s.screen.SignScreen?
    ensures Leads(h, a, ScheduleInputs(withMemo, events), ScheduleIns(withMemo), ScheduleUnion(s), Signing(s.path, s.hash), true)
  {
    hide RunsFlows, S.Run, Leads, T.Carried;
    ScheduleInputsAreSent(withMemo, events);
    ScheduleRunIsReached(h, a, withMemo, ScheduleInputs(withMemo, events), s);
    assert OfSchedule<O>(s) == ScheduleUnion(s) by { SignedIsNotWiped<O>(s); }
  }

  lemma SignedIsNotWiped<O>(s: S.State)
    requires s.screen.SignScreen?
    ensures OfSchedule<O>(s) == ScheduleUnion(s)
  {
  }

  lemma CountIsAByte(n: nat)
    requires n <= UINT8_MAX
    ensures S.Count(n) == [n]
  {
    assert ToBe(n, 1) == ToBe(n / 256, 0) + [n % 256];
  }

  /** A transfer with a schedule of 1 to 255 pairs that can be shown brings up a last review that signs all of it. */
  lemma ScheduleIsReviewed<O(!new)>(h: Handlers<Union<O>, Signing>, a: App<Union<O>, Signing>, first: Data, p2: uint8,
                                   fee: seq<byte>, pairs: seq<S.Pair>)
    returns (events: seq<S.Event>, s: S.State)
    requires RunsFlows(h) && Idle(a) && 1 <= |pairs| <= UINT8_MAX && T.Showable(pairs) && T.FeeSuffix(p2, fee)
    requires var o := S.ReadOpening(first, S.KIND_SCHEDULE); o.Opening? && o.rest == [|pairs|] + fee
    ensures T.Carried(events) && [S.Packet(0, p2, first)] <= events && s.shown == pairs && s.screen.SignScreen?
    ensures var o := S.ReadOpening(first, S.KIND_SCHEDULE);
      Leads(h, a, ScheduleInputs(false, events), 0x03, ScheduleUnion(s),
            Signing(o.path, o.start + o.to + [|pairs|] + S.PairBytes(pairs)), true)
  {
    hide RunsFlows, S.Run, S.ReadOpening, S.PairBytes, Leads, T.Carried, T.Showable;
    events, s := T.EveryScheduleCanBeSigned(first, p2, fee, pairs);
    ScheduleStateIsReached(h, a, false, events, s);
    CountIsAByte(|pairs|);
  }

  /** The same with any accepted memo, in any chunks. */
  lemma MemoScheduleIsReviewed<O(!new)>(h: Handlers<Union<O>, Signing>, a: App<Union<O>, Signing>, first: Data, p2: uint8,
                                       fee: seq<byte>, chunks: seq<Data>, pairs: seq<S.Pair>)
    returns (events: seq<S.Event>, s: S.State)
    requires RunsFlows(h) && Idle(a) && 1 <= |pairs| <= UINT8_MAX && T.Showable(pairs) && T.FeeSuffix(p2, fee)
    requires chunks != [] && E.ParseBlob(Flatten(chunks)).Accepted?
    requires var o := S.ReadOpening(first, S.KIND_SCHEDULE_WITH_MEMO);
      o.Opening? && o.rest == [|pairs|] + ToBe(|Flatten(chunks)|, 2) + fee
    ensures T.Carried(events) && [S.Packet(2, p2, first)] <= events && s.shown == pairs && s.screen.SignScreen?
    ensures var o, memo := S.ReadOpening(first, S.KIND_SCHEDULE_WITH_MEMO), Flatten(chunks);
      Leads(h, a, ScheduleInputs(true, events), 0x34, ScheduleUnion(s),
            Signing(o.path, o.start + o.to + (ToBe(|memo|, 2) + memo) + [|pairs|] + S.PairBytes(pairs)), true)
  {
    hide RunsFlows, S.Run, S.ReadOpening, S.PairBytes, Leads, T.Carried, T.Showable, E.ParseBlob, Flatten, ToBe;
    events, s := T.EveryMemoScheduleCanBeSigned(first, p2, fee, chunks, pairs);
    ScheduleStateIsReached(h, a, true, events, s);
    CountIsAByte(|pairs|);
  }

  // ---- INS 0x31 ----

  function CredentialInputs(events: seq<F.Event>): (r: seq<Input>)
    ensures |r| == |events|
  {
    seq(|events|, i requires 0 <= i < |events| =>
          match events[i] case Send(p1, p2, cdata) => Got(i == 0, Command(0xE0, 0x31, p1, p2, cdata)) case Accept => Approved)
  }

  lemma CredentialInputsAreSent(events: seq<F.Event>)
    requires events != [] && events[0].Send?
    ensures var inputs := CredentialInputs(events);
      Sent(0x31, inputs) && DataInputs(inputs) && CredentialEvents(inputs) == events
  {
    var inputs := CredentialInputs(events);
    forall i | 0 <= i < |inputs| && inputs[i].Got?
      ensures Fits(0x31, inputs[i].c) && inputs[i].c.data != [] && (inputs[i].first ==> i == 0)
    {
    }
    forall i | 0 <= i < |events| ensures CredentialEvents(inputs)[i] == events[i] {
    }
  }

  /** Updating credentials: any valid update brings up a last review that signs exactly its payload, its screens accepted. */
  lemma UpdateIsReviewed<O(!new)>(h: Handlers<Union<O>, Signing>, a: App<Union<O>, Signing>, first: Data, u: Update)
    returns (events: seq<F.Event>, s: F.State)
    requires RunsFlows(h) && Idle(a) && ValidUpdate(u)
    requires var start := StartTransaction(first, F.KIND_UPDATE_CREDENTIALS);
      start.Started? && start.rest != [] && start.rest[0] == |u.added|
    ensures R.Sends(events) == [R.Apdu(0, 0, first)] + R.UpdatePackets(u)
    ensures R.UpdateOf(s) == u && s.pending.SignUp? && s.accepted == Screens(u)
    ensures var start := StartTransaction(first, F.KIND_UPDATE_CREDENTIALS);
      Leads(h, a, CredentialInputs(events), 0x31, CredentialUnion(s), Signing(start.path, start.transcript + Payload(u)), true)
  {
    hide RunsFlows, R.Run, R.Sends, R.UpdatePackets, StartTransaction, Payload, Screens, ValidUpdate, Leads;
    events, s := R.EveryUpdateHasARun(first, u);
    CredentialInputsAreSent(events);
    CredentialRunIsReached(h, a, CredentialInputs(events), s);
  }
}
