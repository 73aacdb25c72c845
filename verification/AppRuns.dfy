/**
 The signing flows inside the whole application: when a review is up, the path and the hash that an
 approval signs with are those of a complete run of that flow's own commands.
 */
module AppRuns {
  import opened AppMachines
  import opened Bytes
  import opened CredentialGrammar
  import opened DerivationPath
  import opened Flows
  import opened Latch
  import opened Options
  import opened Status
  import opened TxHash
  import B = Baker
  import C = Contract
  import F = CredentialFlow
  import P = PltFlow
  import R = CredentialRuns
  import S = Schedule

  // ---- Every machine is sound ----

  lemma ContractIsSound(which: C.Which)
    ensures Sound(ContractMachine(which))
  {
    var m := ContractMachine(which);
    forall first: bool, s: C.State, c: Command | m.sane(s) && !m.up(s) && (first ==> s == m.zero)
      ensures Lands(m, m.packet(first, s, c))
    {
      hide C.Transcript, C.Begin, C.TakeName, C.TakeParams;
      if c.data != [] {
        ContractStepOpens(which, if first then C.Fresh else s, C.Packet(c.p1, c.data));
      }
    }
  }

  /** A contract packet that is accepted leaves the flow under way; the last one brings up the review. */
  lemma ContractStepOpens(which: C.Which, s: C.State, p: C.Packet)
    ensures var r := C.Step(which, s, p);
      r.reply.Open() ==> ContractOwns(r.next) && !r.reply.Continue? && (r.reply.Sign? <==> r.next.Review?)
  {
  }

  lemma PltIsSound()
    ensures Sound(PltMachine())
  {
    var m := PltMachine();
    forall first: bool, s: P.State, c: Command | m.sane(s) && !m.up(s) && (first ==> s == m.zero)
      ensures Lands(m, m.packet(first, s, c))
    {
      hide P.Step, P.SignedAsReceived;
      var s0 := if first then s.(stage := P.Initial) else s;
      P.StepKeepsInv(s0, c.p1, c.p2, c.data);
    }
  }

  lemma BakerIsSound()
    ensures Sound(BakerMachine())
  {
    var m := BakerMachine();
    B.InitialInv();
    forall first: bool, s: B.State, c: Command | m.sane(s) && !m.up(s) && (first ==> s == m.zero)
      ensures Lands(m, m.packet(first, s, c))
    {
      hide B.Inv, B.Step, B.Transcript;
      var s0 := if first then B.Initial else s;
      B.StepKeepsInv(s0, B.Packet(c.p1, c.data));
      BakerStepShows(s0, B.Packet(c.p1, c.data));
    }
    forall s: B.State | m.sane(s) && m.up(s) ensures Lands(m, m.approve(s)) {
      hide B.Inv, B.Transcript;
      if !s.stage.End? {
        B.ConfirmKeepsInv(s);
      }
    }
  }

  /** A review is parked exactly when the reply brings one up. */
  predicate Shows(r: B.Result) {
    r.reply.Open() ==> (r.reply.Ack? <==> !(r.next.Live? && r.next.parked))
  }

  lemma BakerStepShows(s: B.State, p: B.Packet)
    requires B.Inv(s)
    ensures Shows(B.Step(s, p))
  {
    hide Shows, B.Begin, B.TakeFirst, B.TakeAggregation, B.TakeUrlLength, B.TakeUrl, B.TakeRates, B.TakeSuspended,
         B.ValidConfig;
    BeginShows(p.cdata);
    FailShows(ERROR_INVALID_STATE);
    if s.Live? && !s.parked {
      match s.stage
      case FirstBatch => FirstShows(s, p.cdata);
      case UrlLength => UrlLengthShows(s, p.cdata);
      case UrlBytes => UrlShows(s, p.cdata);
      case CommissionRates => RatesShow(s, p.cdata);
      case _ => OthersShow(s, p.cdata);
    }
  }

  lemma BeginShows(cdata: seq<byte>)
    ensures Shows(B.Begin(cdata))
  {
    hide FromBe, StartTransaction, B.FlagsOfBitmap;
  }

  lemma FailShows(sw: int)
    ensures Shows(B.Fail(sw))
  {
  }

  lemma FirstShows(s: B.State, cdata: seq<byte>)
    requires s.Live? && !s.parked
    ensures Shows(B.TakeFirst(s, cdata))
  {
    hide B.CutFirst;
  }

  lemma UrlLengthShows(s: B.State, cdata: seq<byte>)
    requires s.Live? && !s.parked
    ensures Shows(B.TakeUrlLength(s, cdata))
  {
    hide FromBe;
  }

  lemma UrlShows(s: B.State, cdata: seq<byte>)
    requires s.Live? && s.got.url.Some?
    ensures Shows(B.TakeUrl(s, cdata))
  {
    hide DisplayableText;
  }

  lemma RatesShow(s: B.State, cdata: seq<byte>)
    requires s.Live?
    ensures Shows(B.TakeRates(s, cdata))
  {
    hide B.CutRates;
  }

  lemma OthersShow(s: B.State, cdata: seq<byte>)
    requires s.Live?
    ensures Shows(B.TakeAggregation(s, cdata)) && Shows(B.TakeSuspended(s, cdata))
  {
  }

  lemma ScheduleIsSound(withMemo: bool)
    ensures Sound(ScheduleMachine(withMemo))
  {
    var m := ScheduleMachine(withMemo);
    ScheduleStarts();
    forall first: bool, s: S.State, c: Command | m.sane(s) && !m.up(s) && (first ==> s == m.zero)
      ensures Lands(m, m.packet(first, s, c))
    {
      hide S.Inv;
      ScheduleLands(withMemo, if first then S.START else s, S.Packet(c.p1, c.p2, c.data));
    }
    forall s: S.State | m.sane(s) && m.up(s) ensures Lands(m, m.approve(s)) {
      hide S.Inv, S.Confirm;
      if s.screen.InitialScreen? || s.screen.PairScreen? {
        ScheduleLands(withMemo, s, S.Approve);
      }
    }
  }

  lemma ScheduleStarts()
    ensures S.Inv(S.START) && S.Inv(SCHEDULE_ZERO)
  {
  }

  lemma ScheduleLands(withMemo: bool, s: S.State, e: S.Event)
    requires S.Inv(s) && S.Deliverable(s, e)
    ensures var r := S.Step(s, withMemo, e);
      r.reply.Open() ==>
        S.Inv(r.next) && (r.reply.Ack? <==> r.next.screen.NoScreen?) && S.After(s, withMemo, e) == Some(r.next)
  {
    ScheduleScreens(s, withMemo, e);
    hide S.Inv, S.Step;
    if S.Step(s, withMemo, e).reply.Open() {
      S.StepKeepsInv(s, withMemo, e);
    }
  }

  lemma ScheduleScreens(s: S.State, withMemo: bool, e: S.Event)
    requires S.Inv(s) && S.Deliverable(s, e)
    ensures var r := S.Step(s, withMemo, e);
      r.reply.Open() ==> (r.reply.Ack? <==> r.next.screen.NoScreen?)
  {
    hide S.Counting, S.Head, S.PairBytes, S.Count, S.ReadOpening, S.U64At, FromBe, ToBe;
  }

  lemma CredentialIsSound()
    ensures Sound(CredentialMachine())
  {
    var m := CredentialMachine();
    R.StartInv();
    forall first: bool, s: F.State, c: Command | m.sane(s) && !m.up(s) && (first ==> s == m.zero)
      ensures Lands(m, m.packet(first, s, c))
    {
      hide F.Inv, F.Packet;
      if c.data != [] {
        F.PacketKeepsInv(s, c.p1, c.p2, c.data);
        CredentialPacketShows(s, c.p1, c.p2, c.data);
      }
    }
    forall s: F.State | m.sane(s) && m.up(s) ensures Lands(m, m.approve(s)) {
      hide F.Inv, F.Approve;
      if !s.pending.SignUp? {
        F.ApprovalsSucceed(s);
        CredentialApprovalEnds(s);
      }
    }
  }

  lemma CredentialPacketShows(s: F.State, p1: uint8, p2: uint8, cdata: Data)
    requires s.pending.Nothing?
    ensures var r := F.Packet(s, p1, p2, cdata);
      r.reply.Open() ==> (r.reply.Ack? <==> r.next.pending.Nothing?)
  {
    hide StartTransaction, FromBe, DisplayableText;
  }

  lemma CredentialApprovalEnds(s: F.State)
    ensures F.Approve(s).reply.Open() ==> F.Approve(s).reply.Ack? && F.Approve(s).next.pending.Nothing?
  {
  }

  // ---- The place of a machine is the end of a run of its flow ----

  /** What a command that reaches an instruction is to that instruction's flow. */
  function ContractPackets(inputs: seq<Input>): seq<C.Packet>
    requires forall i :: 0 <= i < |inputs| ==> inputs[i].Got? && inputs[i].c.data != []
  {
    seq(|inputs|, i requires 0 <= i < |inputs| => C.Packet(inputs[i].c.p1, inputs[i].c.data))
  }

  function BakerEvents(inputs: seq<Input>): (r: seq<B.Event>)
    ensures |r| == |inputs|
  {
    seq(|inputs|, i requires 0 <= i < |inputs| =>
          match inputs[i] case Got(_, c) => B.Send(B.Packet(c.p1, c.data)) case Approved => B.Approve)
  }

  function ScheduleEvents(inputs: seq<Input>): (r: seq<S.Event>)
    ensures |r| == |inputs|
  {
    seq(|inputs|, i requires 0 <= i < |inputs| =>
          match inputs[i] case Got(_, c) => S.Packet(c.p1, c.p2, c.data) case Approved => S.Approve)
  }

  function CredentialEvents(inputs: seq<Input>): (r: seq<F.Event>)
    requires forall i :: 0 <= i < |inputs| && inputs[i].Got? ==> inputs[i].c.data != []
    ensures |r| == |inputs|
  {
    seq(|inputs|, i requires 0 <= i < |inputs| =>
          match inputs[i] case Got(_, c) => F.Send(c.p1, c.p2, c.data) case Approved => F.Accept)
  }

  /** Commands of an instruction that carries data, the first of them perhaps an initial call. */
  predicate DataInputs(inputs: seq<Input>) {
    && FirstOnce(inputs)
    && forall i :: 0 <= i < |inputs| && inputs[i].Got? ==> inputs[i].c.data != []
  }

  lemma {:induction false} ContractPlace(which: C.Which, inputs: seq<Input>)
    requires DataInputs(inputs) && inputs != [] && Track(ContractMachine(which), inputs).Some?
    ensures forall i :: 0 <= i < |inputs| ==> inputs[i].Got?
    ensures var p := Track(ContractMachine(which), inputs).value;
      && C.Run(which, C.Fresh, ContractPackets(inputs)) == Some(p.s) && ContractOwns(p.s)
      && p.up == p.s.Review? && p.g == Some(ContractGlobals(p.s))
    decreases |inputs|
  {
    hide C.Step, C.Transcript;
    var n := |inputs| - 1;
    var init, i := inputs[..n], inputs[n];
    var m := ContractMachine(which);
    assert Track(m, []) == Some(Place(C.Stale, None, false));
    if n == 0 {
      assert init == [];
      assert i.Got?;
      var p := C.Packet(i.c.p1, i.c.data);
      WipedContractThrows(which, p);
      ContractStepOpens(which, C.Fresh, p);
      assert ContractPackets(inputs) == [] + [p];
      RunAppend(which, C.Fresh, [], p);
    } else {
      ContractPlace(which, init);
      var s := Track(m, init).value.s;
      assert i.Got?;
      var p := C.Packet(i.c.p1, i.c.data);
      ContractStepOpens(which, s, p);
      assert ContractPackets(inputs) == ContractPackets(init) + [p];
      RunAppend(which, C.Fresh, ContractPackets(init), p);
    }
  }

  lemma WipedContractThrows(which: C.Which, p: C.Packet)
    ensures C.Step(which, C.Stale, p).reply.Throw?
    ensures C.Run(which, C.Fresh, []) == Some(C.Fresh)
  {
  }

  lemma RunAppend(which: C.Which, s: C.State, packets: seq<C.Packet>, p: C.Packet)
    requires C.Run(which, s, packets).Some?
    ensures var t := C.Run(which, s, packets).value;
      var r := C.Step(which, t, p);
      C.Run(which, s, packets + [p]) == if r.reply.Open() then Some(r.next) else None
    decreases |packets|
  {
    hide C.Step;
    if packets == [] {
      assert [] + [p] == [p];
      assert [p][1..] == [];
    } else {
      assert (packets + [p])[0] == packets[0] && (packets + [p])[1..] == packets[1..] + [p];
      RunAppend(which, C.Step(which, s, packets[0]).next, packets[1..], p);
    }
  }

  lemma {:induction false} BakerPlace(inputs: seq<Input>)
    requires DataInputs(inputs) && inputs != [] && Track(BakerMachine(), inputs).Some?
    ensures var p := Track(BakerMachine(), inputs).value;
      && B.Run(BakerEvents(inputs)) == Some(p.s) && p.up == (p.s.Live? && p.s.parked)
      && (p.s.Live? ==> p.g == Some(BakerGlobals(p.s)))
    decreases |inputs|
  {
    hide B.Step, B.Inv, B.Transcript, B.Run;
    var n, m := |inputs| - 1, BakerMachine();
    var init, i := inputs[..n], inputs[n];
    var e := BakerEvents(inputs)[n];
    assert BakerEvents(inputs) == BakerEvents(init) + [e];
    BakerIsSound();
    TrackIsSound(m, inputs);
    TrackIsSound(m, init);
    assert Track(m, []) == Some(Place(B.Stale, None, false));
    B.InitialInv();
    if n == 0 {
      assert init == [] && BakerEvents(init) == [];
      NoBakerEvents();
      WipedBakerThrows(B.Packet(i.c.p1, i.c.data));
      B.RunExtended([], e);
    } else {
      BakerPlace(init);
      B.RunExtended(BakerEvents(init), e);
    }
  }

  lemma NoBakerEvents()
    ensures B.Run([]) == Some(B.Initial)
  {
    B.InitialInv();
  }

  lemma WipedBakerThrows(p: B.Packet)
    ensures B.Inv(B.Stale) && B.Step(B.Stale, p).reply.Throw?
  {
    B.InitialInv();
  }

  lemma {:induction false} SchedulePlace(withMemo: bool, inputs: seq<Input>)
    requires DataInputs(inputs) && inputs != [] && Track(ScheduleMachine(withMemo), inputs).Some?
    ensures var p := Track(ScheduleMachine(withMemo), inputs).value;
      && S.Run(withMemo, ScheduleEvents(inputs)) == Some(p.s) && p.up == !p.s.screen.NoScreen?
      && p.g == Some(ScheduleGlobals(p.s))
    decreases |inputs|
  {
    hide S.Inv, S.Run, S.Confirm, S.PacketMemo, S.PacketPlain;
    var n, m := |inputs| - 1, ScheduleMachine(withMemo);
    var init, i := inputs[..n], inputs[n];
    var e := ScheduleEvents(inputs)[n];
    assert ScheduleEvents(inputs) == ScheduleEvents(init) + [e];
    ScheduleIsSound(withMemo);
    TrackIsSound(m, inputs);
    TrackIsSound(m, init);
    ScheduleStarts();
    if n == 0 {
      assert init == [] && ScheduleEvents(init) == [];
      NoScheduleEvents(withMemo);
      WipedScheduleThrows(withMemo, i.c.p1, i.c.p2, i.c.data);
      ScheduleLands(withMemo, S.START, e);
      ScheduleExtended(withMemo, [], S.START, e);
    } else {
      SchedulePlace(withMemo, init);
      var s := Track(m, init).value.s;
      ScheduleApproves(s, i);
      ScheduleLands(withMemo, s, e);
      ScheduleExtended(withMemo, ScheduleEvents(init), s, e);
    }
  }

  lemma NoScheduleEvents(withMemo: bool)
    ensures S.Run(withMemo, []) == Some(S.START)
  {
  }

  lemma WipedScheduleThrows(withMemo: bool, p1: uint8, p2: uint8, cdata: seq<byte>)
    ensures S.PacketMemo(SCHEDULE_ZERO, p1, p2, cdata).reply.Throw?
    ensures S.PacketPlain(SCHEDULE_ZERO, p1, p2, cdata).reply.Throw?
  {
  }

  /** The signing screen is not approved into another state. */
  lemma ScheduleApproves(s: S.State, i: Input)
    ensures i.Approved? && ScheduleApprove(s).Stay? ==> s.screen.InitialScreen? || s.screen.PairScreen?
  {
  }

  lemma ScheduleExtended(withMemo: bool, events: seq<S.Event>, s: S.State, e: S.Event)
    requires S.Run(withMemo, events) == Some(s)
    ensures S.Run(withMemo, events + [e]) == S.After(s, withMemo, e)
  {
    assert (events + [e])[..|events|] == events;
  }

  lemma {:induction false} CredentialPlace(inputs: seq<Input>)
    requires DataInputs(inputs) && inputs != [] && Track(CredentialMachine(), inputs).Some?
    ensures var p := Track(CredentialMachine(), inputs).value;
      && R.Run(CredentialEvents(inputs)) == Some(p.s) && p.up == !p.s.pending.Nothing?
      && p.g == Some(CredentialGlobals(p.s))
    decreases |inputs|
  {
    hide F.Inv, F.Packet, F.Approve, R.Run;
    var n, m := |inputs| - 1, CredentialMachine();
    var init, i := inputs[..n], inputs[n];
    var e := CredentialEvents(inputs)[n];
    assert CredentialEvents(inputs) == CredentialEvents(init) + [e];
    CredentialIsSound();
    TrackIsSound(m, inputs);
    TrackIsSound(m, init);
    R.NothingSent();
    var s := Track(m, init).value.s;
    if n == 0 {
      assert init == [] && CredentialEvents(init) == [];
    } else {
      CredentialPlace(init);
    }
    R.RunExtended(CredentialEvents(init), s, e, Track(m, inputs).value.s);
  }

  function PltPackets(inputs: seq<Input>): (r: seq<P.Packet>)
    requires forall i :: 0 <= i < |inputs| ==> inputs[i].Got?
    ensures |r| == |inputs|
  {
    seq(|inputs|, i requires 0 <= i < |inputs| => P.Packet(inputs[i].c.p1, inputs[i].c.p2, inputs[i].c.data))
  }

  lemma {:induction false} PltPlace(inputs: seq<Input>)
    requires FirstOnce(inputs) && inputs != [] && Track(PltMachine(), inputs).Some?
    ensures forall i :: 0 <= i < |inputs| ==> inputs[i].Got?
    ensures var p := Track(PltMachine(), inputs).value;
      && P.Run(PltPackets(inputs)) == Some(p.s) && p.up == p.s.review.Some? && p.g == Some(PltGlobals(p.s))
    decreases |inputs|
  {
    hide P.Step, P.SignedAsReceived, P.Inv, P.Run;
    var n, m := |inputs| - 1, PltMachine();
    var init, i := inputs[..n], inputs[n];
    PltIsSound();
    TrackIsSound(m, inputs);
    TrackIsSound(m, init);
    if n == 0 {
      assert init == [];
      assert i.Got?;
      assert PltPackets(inputs) == [] + [P.Packet(i.c.p1, i.c.p2, i.c.data)];
      WipedPltRefuses(i.c.p1, i.c.p2, i.c.data);
      PltExtended([], P.FRESH, P.Packet(i.c.p1, i.c.p2, i.c.data));
    } else {
      PltPlace(init);
      assert i.Got?;
      assert PltPackets(inputs) == PltPackets(init) + [P.Packet(i.c.p1, i.c.p2, i.c.data)];
      PltExtended(PltPackets(init), Track(m, init).value.s, P.Packet(i.c.p1, i.c.p2, i.c.data));
    }
  }

  lemma WipedPltRefuses(p1: uint8, p2: uint8, cdata: seq<byte>)
    ensures P.Step(PLT_ZERO, p1, p2, cdata).1.Refuse?
    ensures PLT_ZERO.(stage := P.Initial) == P.FRESH && P.Run([]) == Some(P.FRESH)
  {
  }

  lemma PltExtended(packets: seq<P.Packet>, s: P.State, p: P.Packet)
    requires P.Run(packets) == Some(s) && s.review.None?
    ensures var (t, reply) := P.Step(s, p.p1, p.p2, p.cdata);
      P.Run(packets + [p]) == if reply.Open() then Some(t) else None
  {
    assert (packets + [p])[..|packets|] == packets;
  }

  // ---- The application ----

  /** The union, holding the context of one of these instructions or of any other. */
  datatype Union<O> =
    | WipedUnion
    | ContractUnion(contract: C.State)
    | PltUnion(plt: P.State)
    | BakerUnion(baker: B.State)
    | ScheduleUnion(schedule: S.State)
    | CredentialUnion(credential: F.State)
    | OtherUnion(other: O)

  function OfContract<O>(s: C.State): Union<O> {
    if s.Stale? then WipedUnion else ContractUnion(s)
  }

  function OfPlt<O>(s: P.State): Union<O> {
    if s == PLT_ZERO then WipedUnion else PltUnion(s)
  }

  function OfBaker<O>(s: B.State): Union<O> {
    if s.Stale? then WipedUnion else BakerUnion(s)
  }

  function OfSchedule<O>(s: S.State): Union<O> {
    if s == SCHEDULE_ZERO then WipedUnion else ScheduleUnion(s)
  }

  function OfCredential<O>(s: F.State): Union<O> {
    if s == F.START then WipedUnion else CredentialUnion(s)
  }

  const FLOWS: set<uint8> :=
    {INS_INIT_CONTRACT, INS_UPDATE_CONTRACT, INS_SIGN_PLT, INS_CONFIGURE_BAKER, INS_SCHEDULE, INS_SCHEDULE_AND_MEMO,
     INS_UPDATE_CREDENTIAL}

  /** `h` runs the signing flows for their instructions, and anything at all for the others. */
  ghost predicate RunsFlows<O(!new)>(h: Handlers<Union<O>, Signing>) {
    && Refines(h, INS_INIT_CONTRACT, ContractMachine(C.InitContract), OfContract)
    && Refines(h, INS_UPDATE_CONTRACT, ContractMachine(C.UpdateContract), OfContract)
    && Refines(h, INS_SIGN_PLT, PltMachine(), OfPlt)
    && Refines(h, INS_CONFIGURE_BAKER, BakerMachine(), OfBaker)
    && Refines(h, INS_SCHEDULE, ScheduleMachine(false), OfSchedule)
    && Refines(h, INS_SCHEDULE_AND_MEMO, ScheduleMachine(true), OfSchedule)
    && Refines(h, INS_UPDATE_CREDENTIAL, CredentialMachine(), OfCredential)
  }

  /** None of these flows reads globals it has not set itself. */
  lemma FlowsStartAfresh<O(!new)>(h: Handlers<Union<O>, Signing>, ins: uint8)
    requires RunsFlows(h) && ins in FLOWS
    ensures StartsAfresh(h, ins)
  {
    hide Refines, Sound, StartsAfresh;
    if ins == INS_INIT_CONTRACT {
      ContractIsSound(C.InitContract);
      RefiningStartsAfresh(h, ins, ContractMachine(C.InitContract), OfContract);
    } else if ins == INS_UPDATE_CONTRACT {
      ContractIsSound(C.UpdateContract);
      RefiningStartsAfresh(h, ins, ContractMachine(C.UpdateContract), OfContract);
    } else if ins == INS_SIGN_PLT {
      PltIsSound();
      RefiningStartsAfresh(h, ins, PltMachine(), OfPlt);
    } else if ins == INS_CONFIGURE_BAKER {
      BakerIsSound();
      RefiningStartsAfresh(h, ins, BakerMachine(), OfBaker);
    } else if ins == INS_SCHEDULE || ins == INS_SCHEDULE_AND_MEMO {
      ScheduleIsSound(ins == INS_SCHEDULE_AND_MEMO);
      RefiningStartsAfresh(h, ins, ScheduleMachine(ins == INS_SCHEDULE_AND_MEMO), OfSchedule);
    } else {
      CredentialIsSound();
      RefiningStartsAfresh(h, ins, CredentialMachine(), OfCredential);
    }
  }

  /**
   What an approval signs with, in any run of the application: the path and the hash are what the
   open flow's own commands make of any globals at all.
   */
  lemma SignatureIsOwn<O(!new)>(h: Handlers<Union<O>, Signing>, start: App<Union<O>, Signing>, events: seq<Event>, k: Signing)
    requires RunsFlows(h) && Idle(start) && Run(h, start, events).Some?
    requires var a := Run(h, start, events).value; a.up && a.latch.Some? && a.latch.value in FLOWS
    ensures var a := Run(h, start, events).value;
      Owned(a.latch.value, a.inputs) && Alone(h, a.latch.value, k, a.inputs) == Some((a.u, a.g, a.up))
  {
    hide Run, Owned, StartsAfresh, RunsFlows;
    FlowsStartAfresh(h, Run(h, start, events).value.latch.value);
    SigningStateIsOwn(h, start, events, k);
  }

  lemma OwnedIsData(ins: uint8, inputs: seq<Input>)
    requires Owned(ins, inputs)
    ensures FirstOnce(inputs) && (ins in DATA_INSTRUCTIONS ==> DataInputs(inputs))
  {
    forall i | 0 <= i < |inputs| && inputs[i].Got?
      ensures inputs[i].first ==> i == 0
      ensures ins in DATA_INSTRUCTIONS ==> inputs[i].c.data != []
    {
      assert Admit(inputs[i].c) == Admitted;
    }
  }

  /** The place of the machine behind an open flow of the application. */
  lemma OpenFlow<O(!new), T(!new)>(h: Handlers<Union<O>, Signing>, start: App<Union<O>, Signing>, events: seq<Event>,
                                  m: Machine<T, Signing>, inject: T -> Union<O>)
    requires Idle(start) && Run(h, start, events).Some? && Run(h, start, events).value.latch.Some?
    requires Run(h, start, events).value.up && Refines(h, Run(h, start, events).value.latch.value, m, inject) && Sound(m)
    ensures var a := Run(h, start, events).value;
      && a.inputs != [] && FirstOnce(a.inputs) && (a.latch.value in DATA_INSTRUCTIONS ==> DataInputs(a.inputs))
      && Track(m, a.inputs).Some?
      && var p := Track(m, a.inputs).value;
         a.u == inject(p.s) && p.g == Some(a.g) && p.up
  {
    hide Run, Refines, Sound, Owned;
    RunsAreIsolated(h, start, events);
    var a := Run(h, start, events).value;
    OwnedIsData(a.latch.value, a.inputs);
    OpenFlowIsTracked(h, a.latch.value, m, inject, a.claimed, a.inputs);
  }

  /** INS 0x07 and 0x08: at the review the path and the hash are those of one run of the flow's own packets. */
  lemma ContractSignatureIsItsOwn<O(!new)>(h: Handlers<Union<O>, Signing>, start: App<Union<O>, Signing>, events: seq<Event>)
    returns (packets: seq<C.Packet>, s: C.State)
    requires RunsFlows(h) && Idle(start) && Run(h, start, events).Some?
    requires var a := Run(h, start, events).value;
      a.up && a.latch.Some? && a.latch.value in {INS_INIT_CONTRACT, INS_UPDATE_CONTRACT}
    ensures var a := Run(h, start, events).value;
      && C.Run(if a.latch.value == INS_INIT_CONTRACT then C.InitContract else C.UpdateContract, C.Fresh, packets) == Some(s)
      && s.Review? && a.u == ContractUnion(s) && a.g == Signing(s.path, C.Transcript(s))
      && (forall i :: 0 <= i < |a.inputs| ==> a.inputs[i].Got? && a.inputs[i].c.data != [])
      && packets == ContractPackets(a.inputs)
  {
    hide Run, C.Run, C.Transcript, Refines, Sound, Track;
    var a := Run(h, start, events).value;
    var which := if a.latch.value == INS_INIT_CONTRACT then C.InitContract else C.UpdateContract;
    ContractIsSound(which);
    OpenFlow(h, start, events, ContractMachine(which), OfContract);
    ContractPlace(which, a.inputs);
    packets, s := ContractPackets(a.inputs), Track(ContractMachine(which), a.inputs).value.s;
  }

  /** INS 0x27: at the review the hash is header, token and the printed operation that is shown. */
  lemma PltSignatureIsItsOwn<O(!new)>(h: Handlers<Union<O>, Signing>, start: App<Union<O>, Signing>, events: seq<Event>)
    returns (packets: seq<P.Packet>, s: P.State)
    requires RunsFlows(h) && Idle(start) && Run(h, start, events).Some?
    requires var a := Run(h, start, events).value; a.up && a.latch == Some(INS_SIGN_PLT)
    ensures var a := Run(h, start, events).value;
      && P.Run(packets) == Some(s) && a.u == OfPlt(s) && a.g == Signing(s.path, s.hash)
      && (forall i :: 0 <= i < |a.inputs| ==> a.inputs[i].Got?) && packets == PltPackets(a.inputs)
    ensures s.review.Some? && |s.received| == s.total && P.SignedAsReceived(s.received, s.review.value)
    ensures |s.tokenId| <= UINT8_MAX && s.hash == P.Prefix(s.header, s.tokenId, s.total) + s.received
  {
    hide Run, P.Run, Refines, Sound, Track, P.SignedAsReceived;
    var a := Run(h, start, events).value;
    PltIsSound();
    OpenFlow(h, start, events, PltMachine(), OfPlt);
    PltPlace(a.inputs);
    packets, s := PltPackets(a.inputs), Track(PltMachine(), a.inputs).value.s;
    P.RunsKeepInv(packets);
    PltReviewIsCollecting(packets);
  }

  lemma {:induction false} PltReviewIsCollecting(packets: seq<P.Packet>)
    requires P.Run(packets).Some?
    ensures P.Run(packets).value.review.Some? ==> P.Run(packets).value.stage.Collecting?
  {
    hide P.Step, P.Inv, P.SignedAsReceived;
    if packets != [] {
      var p := packets[|packets| - 1];
      P.RunsKeepInv(packets[..|packets| - 1]);
      P.StepKeepsInv(P.Run(packets[..|packets| - 1]).value, p.p1, p.p2, p.cdata);
    }
  }

  /** INS 0x18: at every review path and hash are those of the flow's own run, at the last one of a whole configuration. */
  lemma BakerSignatureIsItsOwn<O(!new)>(h: Handlers<Union<O>, Signing>, start: App<Union<O>, Signing>, events: seq<Event>)
    returns (own: seq<B.Event>, s: B.State)
    requires RunsFlows(h) && Idle(start) && Run(h, start, events).Some?
    requires var a := Run(h, start, events).value; a.up && a.latch == Some(INS_CONFIGURE_BAKER)
    ensures var a := Run(h, start, events).value;
      && B.Run(own) == Some(s) && own == BakerEvents(a.inputs) && s.Live? && s.parked
      && a.u == BakerUnion(s) && a.g == Signing(s.path, B.Transcript(s))
    ensures s.stage.End? ==> B.ValidConfig(s.got) && B.Transcript(s) == s.head + B.Serialize(s.got)
  {
    hide Run, B.Run, B.Transcript, B.Serialize, B.ValidConfig, Refines, Sound, Track;
    var a := Run(h, start, events).value;
    BakerIsSound();
    OpenFlow(h, start, events, BakerMachine(), OfBaker);
    BakerPlace(a.inputs);
    own, s := BakerEvents(a.inputs), Track(BakerMachine(), a.inputs).value.s;
    if s.stage.End? {
      B.SignedConfigurationIsComplete(s, own);
    }
  }

  /** INS 0x03 and 0x34: the same, at the last review with the whole schedule. */
  lemma ScheduleSignatureIsItsOwn<O(!new)>(h: Handlers<Union<O>, Signing>, start: App<Union<O>, Signing>, events: seq<Event>)
    returns (own: seq<S.Event>, s: S.State)
    requires RunsFlows(h) && Idle(start) && Run(h, start, events).Some?
    requires var a := Run(h, start, events).value;
      a.up && a.latch.Some? && a.latch.value in {INS_SCHEDULE, INS_SCHEDULE_AND_MEMO}
    ensures var a := Run(h, start, events).value;
      && S.Run(a.latch.value == INS_SCHEDULE_AND_MEMO, own) == Some(s) && own == ScheduleEvents(a.inputs)
      && a.u == OfSchedule(s) && a.g == Signing(s.path, s.hash)
    ensures s.screen.SignScreen? ==>
              && |s.shown| == s.declared >= 1
              && s.hash == s.start + s.to + (if s.withMemo then ToBe(|s.memo|, 2) + s.memo else [])
                           + S.Count(s.declared) + S.PairBytes(s.shown)
  {
    hide Run, S.Run, S.PairBytes, S.Count, ToBe, Refines, Sound, Track;
    var a := Run(h, start, events).value;
    var withMemo := a.latch.value == INS_SCHEDULE_AND_MEMO;
    ScheduleIsSound(withMemo);
    OpenFlow(h, start, events, ScheduleMachine(withMemo), OfSchedule);
    SchedulePlace(withMemo, a.inputs);
    own, s := ScheduleEvents(a.inputs), Track(ScheduleMachine(withMemo), a.inputs).value.s;
    if s.screen.SignScreen? {
      S.SignedScheduleIsComplete(s, withMemo, own);
    }
  }

  /** INS 0x31: the same, at the last review with the whole update and exactly its screens accepted. */
  lemma CredentialSignatureIsItsOwn<O(!new)>(h: Handlers<Union<O>, Signing>, start: App<Union<O>, Signing>, events: seq<Event>)
    returns (own: seq<F.Event>, s: F.State)
    requires RunsFlows(h) && Idle(start) && Run(h, start, events).Some?
    requires var a := Run(h, start, events).value; a.up && a.latch == Some(INS_UPDATE_CREDENTIAL)
    ensures var a := Run(h, start, events).value;
      && DataInputs(a.inputs) && R.Run(own) == Some(s) && own == CredentialEvents(a.inputs)
      && a.u == OfCredential(s) && a.g == Signing(s.path, s.hash)
    ensures s.pending.SignUp? ==>
              && ValidUpdate(R.UpdateOf(s)) && s.hash == s.head + Payload(R.UpdateOf(s))
              && s.accepted == Screens(R.UpdateOf(s))
  {
    hide Run, R.Run, Payload, Screens, ValidUpdate, Refines, Sound, Track;
    var a := Run(h, start, events).value;
    CredentialIsSound();
    OpenFlow(h, start, events, CredentialMachine(), OfCredential);
    CredentialPlace(a.inputs);
    own, s := CredentialEvents(a.inputs), Track(CredentialMachine(), a.inputs).value.s;
    if s.pending.SignUp? {
      R.SignedUpdateIsReviewed(s, own);
    }
  }

  // ---- Such handlers exist ----

  function Lift<O, T>(r: Handled<T, Signing>, inject: T -> Union<O>): Handled<Union<O>, Signing> {
    match r
    case Stay(s, g, up) => Stay(inject(s), g, up)
    case Release(s, g) => Release(inject(s), g)
    case Thrown(g) => Handled.Thrown(g)
  }

  function ContractIn<O>(u: Union<O>): C.State {
    if u.ContractUnion? then u.contract else C.Stale
  }

  function PltIn<O>(u: Union<O>): P.State {
    if u.PltUnion? then u.plt else PLT_ZERO
  }

  function BakerIn<O>(u: Union<O>): B.State {
    if u.BakerUnion? then u.baker else B.Stale
  }

  function ScheduleIn<O>(u: Union<O>): S.State {
    if u.ScheduleUnion? then u.schedule else SCHEDULE_ZERO
  }

  function CredentialIn<O>(u: Union<O>): F.State {
    if u.CredentialUnion? then u.credential else F.START
  }

  /** An application with these flows and nothing else. */
  function FlowHandlers(): Handlers<Union<()>, Signing> {
    Handlers(
      WipedUnion,
      (ins: uint8, first: bool, u: Union<()>, g: Signing, c: Command) => FlowPacket(ins, first, u, g, c),
      (ins: uint8, u: Union<()>, g: Signing) => FlowApprove(ins, u, g))
  }

  function FlowPacket(ins: uint8, first: bool, u: Union<()>, g: Signing, c: Command): Handled<Union<()>, Signing> {
    if ins == INS_INIT_CONTRACT then Lift(ContractPacket(C.InitContract, first, ContractIn(u), c), OfContract)
    else if ins == INS_UPDATE_CONTRACT then Lift(ContractPacket(C.UpdateContract, first, ContractIn(u), c), OfContract)
    else if ins == INS_SIGN_PLT then Lift(PltPacket(first, PltIn(u), c), OfPlt)
    else if ins == INS_CONFIGURE_BAKER then Lift(BakerPacket(first, BakerIn(u), c), OfBaker)
    else if ins == INS_SCHEDULE then Lift(SchedulePacket(false, first, ScheduleIn(u), c), OfSchedule)
    else if ins == INS_SCHEDULE_AND_MEMO then Lift(SchedulePacket(true, first, ScheduleIn(u), c), OfSchedule)
    else if ins == INS_UPDATE_CREDENTIAL then Lift(CredentialPacket(first, CredentialIn(u), c), OfCredential)
    else Handled.Thrown(g)
  }

  function FlowApprove(ins: uint8, u: Union<()>, g: Signing): Handled<Union<()>, Signing> {
    if ins == INS_CONFIGURE_BAKER then Lift(BakerApprove(BakerIn(u)), OfBaker)
    else if ins == INS_SCHEDULE || ins == INS_SCHEDULE_AND_MEMO then Lift(ScheduleApprove(ScheduleIn(u)), OfSchedule)
    else if ins == INS_UPDATE_CREDENTIAL then Lift(CredentialApprove(CredentialIn(u)), OfCredential)
    else Release(u, g)
  }

  lemma FlowHandlersRunFlows()
    ensures RunsFlows(FlowHandlers())
  {
    hide Refines, FlowHandlers, ContractMachine, PltMachine, BakerMachine, ScheduleMachine, CredentialMachine;
    ContractHandlersRefine(C.InitContract);
    ContractHandlersRefine(C.UpdateContract);
    PltHandlersRefine();
    BakerHandlersRefine();
    ScheduleHandlersRefine(false);
    ScheduleHandlersRefine(true);
    CredentialHandlersRefine();
  }

  lemma ContractHandlersRefine(which: C.Which)
    ensures Refines(FlowHandlers(), if which.InitContract? then INS_INIT_CONTRACT else INS_UPDATE_CONTRACT,
                    ContractMachine(which), OfContract)
  {
    hide ContractPacket, ContractGlobals;
  }

  lemma PltHandlersRefine()
    ensures Refines(FlowHandlers(), INS_SIGN_PLT, PltMachine(), OfPlt)
  {
    var h, m := FlowHandlers(), PltMachine();
    forall first: bool, s: P.State, g: Signing, c: Command
      ensures Mirrors(h.packet(INS_SIGN_PLT, first, OfPlt(s), g, c), m.packet(first, s, c), OfPlt)
    {
      hide Mirrors, Lift, PltPacket, OfPlt, PltIn;
      PltAgain(s);
      LiftMirrors(PltPacket(first, s, c), OfPlt);
    }
    forall s: P.State, g: Signing
      ensures Mirrors(h.approve(INS_SIGN_PLT, OfPlt(s), g), m.approve(s), OfPlt)
    {
      hide PltPacket, OfPlt, PltIn;
      PltAgain(s);
    }
    hide Mirrors, FlowHandlers, PltMachine;
  }

  lemma PltAgain(s: P.State)
    ensures PltIn(OfPlt<()>(s)) == s
  {
  }

  lemma BakerHandlersRefine()
    ensures Refines(FlowHandlers(), INS_CONFIGURE_BAKER, BakerMachine(), OfBaker)
  {
    hide BakerPacket, BakerApprove;
  }

  lemma ScheduleHandlersRefine(withMemo: bool)
    ensures Refines(FlowHandlers(), if withMemo then INS_SCHEDULE_AND_MEMO else INS_SCHEDULE,
                    ScheduleMachine(withMemo), OfSchedule)
  {
    hide SchedulePacket, ScheduleApprove;
  }

  lemma CredentialHandlersRefine()
    ensures Refines(FlowHandlers(), INS_UPDATE_CREDENTIAL, CredentialMachine(), OfCredential)
  {
    var h, m := FlowHandlers(), CredentialMachine();
    forall first: bool, s: F.State, g: Signing, c: Command
      ensures Mirrors(h.packet(INS_UPDATE_CREDENTIAL, first, OfCredential(s), g, c), m.packet(first, s, c), OfCredential)
    {
      hide Mirrors, Lift, CredentialPacket, OfCredential, CredentialIn;
      CredentialAgain(s);
      LiftMirrors(CredentialPacket(first, s, c), OfCredential);
    }
    forall s: F.State, g: Signing
      ensures Mirrors(h.approve(INS_UPDATE_CREDENTIAL, OfCredential(s), g), m.approve(s), OfCredential)
    {
      hide Mirrors, Lift, CredentialApprove, OfCredential, CredentialIn;
      CredentialAgain(s);
      LiftMirrors(CredentialApprove(s), OfCredential);
    }
    hide Mirrors, FlowHandlers, CredentialMachine;
  }

  lemma CredentialAgain(s: F.State)
    ensures CredentialIn(OfCredential<()>(s)) == s
  {
  }

  lemma LiftMirrors<T>(r: Handled<T, Signing>, inject: T -> Union<()>)
    ensures Mirrors(Lift(r, inject), r, inject)
  {
  }
}
