/**
 The signing flows are reached: the commands of a complete run of a flow, sent to an idle
 application, bring up its review with the path and the hash of that run.
 */
module Reach {
  import opened AppMachines
  import opened AppRuns
  import opened Bytes
  import opened Flows
  import opened Latch
  import opened Options
  import B = Baker
  import C = Contract
  import F = CredentialFlow
  import opened PltParser
  import P = PltFlow
  import R = CredentialRuns
  import S = Schedule

  /** What the host sends and the user answers, as the application sees it. */
  function Events(inputs: seq<Input>): (r: seq<Event>)
    ensures |r| == |inputs|
  {
    seq(|inputs|, i requires 0 <= i < |inputs| => match inputs[i] case Got(_, c) => Apdu(c) case Approved => Approve)
  }

  /** Commands of one signing instruction, the first of them opening it, and approvals among them. */
  predicate Sent(ins: uint8, inputs: seq<Input>) {
    && inputs != [] && inputs[0].Got?
    && forall i :: 0 <= i < |inputs| && inputs[i].Got? ==> Fits(ins, inputs[i].c) && (inputs[i].first <==> i == 0)
  }

  /** A command for a signing instruction that has what the dispatcher asks for. */
  predicate Fits(ins: uint8, c: Command) {
    && c.cla == 0xE0 && c.ins == ins
    && ((ins in {0x03, 0x07, 0x08, 0x18, 0x31, 0x34} && c.data != []) || (ins == 0x27 && (c.data != [] || c.p1 == 1)))
  }

  lemma FittingIsDelivered(ins: uint8, c: Command)
    requires Fits(ins, c)
    ensures Delivers(ins, c)
  {
  }

  /** The application is at this place of the flow that holds the latch. */
  predicate At<U(==), S, G(==)>(a: App<U, G>, ins: uint8, p: Place<S, G>, inject: S -> U) {
    a.latch == Some(ins) && a.u == inject(p.s) && p.g == Some(a.g) && a.up == p.up
  }

  /** From an idle application, the inputs that lead a machine anywhere lead the application there. */
  lemma {:induction false} TrackedIsReached<U, S(!new), G(!new)>(h: Handlers<U, G>, a: App<U, G>, ins: uint8, m: Machine<S, G>,
                                                                 inject: S -> U, inputs: seq<Input>)
    requires Refines(h, ins, m, inject) && Sound(m) && Idle(a) && Sent(ins, inputs) && Track(m, inputs).Some?
    ensures var r := Run(h, a, Events(inputs));
      r.Some? && At(r.value, ins, Track(m, inputs).value, inject)
    decreases |inputs|
  {
    hide Refines, Sound, Mirrors, Fits;
    var n := |inputs| - 1;
    var init, i := inputs[..n], inputs[n];
    assert Events(inputs) == Events(init) + [Events(inputs)[n]];
    RunGrows(h, a, Events(init), Events(inputs)[n]);
    TrackIsSound(m, init);
    if n == 0 {
      assert init == [] && Events(init) == [];
      NothingYet(h, a);
      Opening(h, a, ins, m, inject, i.c);
    } else {
      assert Sent(ins, init);
      TrackedIsReached(h, a, ins, m, inject, init);
      Continuing(h, Run(h, a, Events(init)).value, ins, m, inject, Track(m, init).value, i);
    }
  }

  lemma NothingYet<U, G>(h: Handlers<U, G>, a: App<U, G>)
    ensures Run(h, a, []) == Some(a)
  {
  }

  lemma Opening<U, S(!new), G(!new)>(h: Handlers<U, G>, a: App<U, G>, ins: uint8, m: Machine<S, G>, inject: S -> U, c: Command)
    requires Refines(h, ins, m, inject) && Sound(m) && Idle(a) && Fits(ins, c)
    requires m.packet(true, m.zero, c).Stay?
    ensures var r := m.packet(true, m.zero, c);
      At(Step(h, a, Apdu(c)), ins, Place(r.u, Some(r.g), r.up), inject)
  {
    FittingIsDelivered(ins, c);
    assert Agrees(m, m.zero, a.g);
    assert Mirrors(h.packet(ins, true, inject(m.zero), a.g, c), m.packet(true, m.zero, c), inject);
    assert Step(h, a, Apdu(c)) == Receive(h, a, c);
  }

  lemma Continuing<U, S(!new), G(!new)>(h: Handlers<U, G>, a: App<U, G>, ins: uint8, m: Machine<S, G>, inject: S -> U,
                                       p: Place<S, G>, i: Input)
    requires Refines(h, ins, m, inject) && Sound(m) && At(a, ins, p, inject)
    requires m.sane(p.s) && p.up == m.up(p.s) && p.g.Some? && Agrees(m, p.s, p.g.value)
    requires i.Got? ==> Fits(ins, i.c) && !i.first
    requires i.Approved? == p.up && Move(m, p.s, i).Stay?
    ensures var e := match i case Got(_, c) => Apdu(c) case Approved => Approve;
      Possible(a, e) && At(Step(h, a, e), ins, Place(Move(m, p.s, i).u, Some(Move(m, p.s, i).g), Move(m, p.s, i).up), inject)
  {
    match i
    case Got(first, c) =>
      FittingIsDelivered(ins, c);
      assert Mirrors(h.packet(ins, false, inject(p.s), a.g, c), m.packet(false, p.s, c), inject);
    case Approved =>
      assert Mirrors(h.approve(ins, inject(p.s), a.g), m.approve(p.s), inject);
  }

  lemma SentIsData(ins: uint8, inputs: seq<Input>)
    requires Sent(ins, inputs)
    ensures FirstOnce(inputs) && (ins != 0x27 ==> DataInputs(inputs))
    ensures |inputs| > 1 ==> Sent(ins, inputs[..|inputs| - 1])
  {
  }

  /** The inputs can all happen, and lead there. */
  predicate Leads<U(==), G(==)>(h: Handlers<U, G>, a: App<U, G>, inputs: seq<Input>, ins: uint8, u: U, g: G, up: bool) {
    Run(h, a, Events(inputs)).Some? && Holds(Run(h, a, Events(inputs)).value, Some(ins), u, g, up)
  }

  // ---- INS 0x07 and 0x08 ----

  function ContractIns(which: C.Which): uint8 {
    match which case InitContract => 0x07 case UpdateContract => 0x08
  }

  lemma {:induction false} ContractIsTracked(which: C.Which, inputs: seq<Input>)
    requires Sent(ContractIns(which), inputs) && forall i :: 0 <= i < |inputs| ==> inputs[i].Got?
    requires DataInputs(inputs) && C.Run(which, C.Fresh, ContractPackets(inputs)).Some?
    ensures Track(ContractMachine(which), inputs).Some?
    decreases |inputs|
  {
    hide C.Step, C.Transcript, Fits;
    var n, m := |inputs| - 1, ContractMachine(which);
    var init, c := inputs[..n], inputs[n].c;
    SentIsData(ContractIns(which), inputs);
    var p := C.Packet(c.p1, c.data);
    assert ContractPackets(inputs) == ContractPackets(init) + [p];
    ContractPrefix(which, C.Fresh, ContractPackets(init), p);
    RunAppend(which, C.Fresh, ContractPackets(init), p);
    if n == 0 {
      assert init == [] && ContractPackets(init) == [];
      WipedContractThrows(which, p);
      ContractStepOpens(which, C.Fresh, p);
    } else {
      ContractIsTracked(which, init);
      ContractPlace(which, init);
      var s := Track(m, init).value.s;
      ContractStepOpens(which, s, p);
      ReviewTakesNoPacket(which, s, p);
    }
  }

  lemma {:induction false} ContractPrefix(which: C.Which, s: C.State, packets: seq<C.Packet>, p: C.Packet)
    requires C.Run(which, s, packets + [p]).Some?
    ensures C.Run(which, s, packets).Some?
    decreases |packets|
  {
    hide C.Step;
    if packets != [] {
      assert (packets + [p])[0] == packets[0] && (packets + [p])[1..] == packets[1..] + [p];
      ContractPrefix(which, C.Step(which, s, packets[0]).next, packets[1..], p);
    }
  }

  lemma ReviewTakesNoPacket(which: C.Which, s: C.State, p: C.Packet)
    ensures s.Review? ==> !C.Step(which, s, p).reply.Open()
  {
  }

  /** The packets of any run of a contract flow take an idle application to the state of that run. */
  lemma ContractRunIsReached<O(!new)>(h: Handlers<Union<O>, Signing>, a: App<Union<O>, Signing>, which: C.Which, inputs: seq<Input>,
                                     s: C.State)
    requires RunsFlows(h) && Idle(a) && Sent(ContractIns(which), inputs) && forall i :: 0 <= i < |inputs| ==> inputs[i].Got?
    requires DataInputs(inputs) && C.Run(which, C.Fresh, ContractPackets(inputs)) == Some(s)
    ensures Leads(h, a, inputs, ContractIns(which), ContractUnion(s), ContractGlobals(s), s.Review?)
    ensures s.Review? ==> ContractGlobals(s) == Signing(s.path, C.Transcript(s))
  {
    hide Run, Refines, Sound, Track, C.Run, C.Transcript;
    SentIsData(ContractIns(which), inputs);
    ContractIsTracked(which, inputs);
    ContractIsSound(which);
    TrackedIsReached(h, a, ContractIns(which), ContractMachine(which), OfContract, inputs);
    ContractPlace(which, inputs);
  }

  // ---- INS 0x27 ----

  lemma {:induction false} PltIsTracked(inputs: seq<Input>)
    requires Sent(0x27, inputs) && (forall i :: 0 <= i < |inputs| ==> inputs[i].Got?) && P.Run(PltPackets(inputs)).Some?
    ensures Track(PltMachine(), inputs).Some?
    decreases |inputs|
  {
    hide P.Step, P.SignedAsReceived, P.Inv, Fits;
    var n, m := |inputs| - 1, PltMachine();
    var init, c := inputs[..n], inputs[n].c;
    SentIsData(0x27, inputs);
    var p := P.Packet(c.p1, c.p2, c.data);
    assert PltPackets(inputs) == PltPackets(init) + [p];
    assert PltPackets(inputs)[..n] == PltPackets(init);
    PltNeverContinues(P.Run(PltPackets(init)).value, p);
    if n == 0 {
      assert init == [] && PltPackets(init) == [];
      WipedPltRefuses(c.p1, c.p2, c.data);
    } else {
      PltIsTracked(init);
      PltPlace(init);
    }
  }

  lemma PltNeverContinues(s: P.State, p: P.Packet)
    ensures !P.Step(s, p.p1, p.p2, p.cdata).1.Continue?
  {
    hide ParsePlt;
  }

  /** The packets of any run of a token operation take an idle application to the state of that run. */
  lemma PltRunIsReached<O(!new)>(h: Handlers<Union<O>, Signing>, a: App<Union<O>, Signing>, inputs: seq<Input>, s: P.State)
    requires RunsFlows(h) && Idle(a) && Sent(0x27, inputs) && (forall i :: 0 <= i < |inputs| ==> inputs[i].Got?)
    requires P.Run(PltPackets(inputs)) == Some(s)
    ensures Leads(h, a, inputs, 0x27, OfPlt(s), Signing(s.path, s.hash), s.review.Some?)
  {
    hide Run, Refines, Sound, Track, P.Run;
    SentIsData(0x27, inputs);
    PltIsTracked(inputs);
    PltIsSound();
    TrackedIsReached(h, a, 0x27, PltMachine(), OfPlt, inputs);
    PltPlace(inputs);
  }

  // ---- INS 0x18 ----

  lemma BakerAcceptance(s: B.State, p: B.Packet)
    requires B.Inv(s)
    ensures B.Step(s, p).next != B.Stale ==> B.Step(s, p).reply.Open()
    ensures s == B.Stale ==> B.Step(s, p).next == B.Stale
  {
    hide FromBe, DisplayableText, B.CutFirst, B.CutRates;
  }

  lemma {:induction false} BakerIsTracked(inputs: seq<Input>, s: B.State)
    requires Sent(0x18, inputs) && B.Run(BakerEvents(inputs)) == Some(s) && s != B.Stale
    ensures Track(BakerMachine(), inputs).Some?
    decreases |inputs|
  {
    hide B.Step, B.Inv, B.Transcript, B.Run, Fits;
    var n, m := |inputs| - 1, BakerMachine();
    var init, i := inputs[..n], inputs[n];
    var e := BakerEvents(inputs)[n];
    SentIsData(0x18, inputs);
    assert BakerEvents(inputs) == BakerEvents(init) + [e];
    B.RunExtended(BakerEvents(init), e);
    var t := B.Run(BakerEvents(init)).value;
    if i.Got? {
      var p := B.Packet(i.c.p1, i.c.data);
      BakerAcceptance(t, p);
      if t.Live? && t.parked {
        B.ParkedRefusesPackets(t, p);
      }
    }
    BakerIsSound();
    TrackIsSound(m, init);
    if n == 0 {
      assert init == [] && BakerEvents(init) == [];
      NoBakerEvents();
    } else {
      BakerIsTracked(init, t);
      BakerPlace(init);
    }
  }

  /** The packets and approvals of any run of a validator configuration take an idle application to the state of that run. */
  lemma BakerRunIsReached<O(!new)>(h: Handlers<Union<O>, Signing>, a: App<Union<O>, Signing>, inputs: seq<Input>, s: B.State)
    requires RunsFlows(h) && Idle(a) && Sent(0x18, inputs) && B.Run(BakerEvents(inputs)) == Some(s) && s.Live?
    ensures Leads(h, a, inputs, 0x18, BakerUnion(s), Signing(s.path, B.Transcript(s)), s.parked)
  {
    hide Run, Refines, Sound, Track, B.Run, B.Transcript;
    SentIsData(0x18, inputs);
    BakerIsTracked(inputs, s);
    BakerIsSound();
    TrackedIsReached(h, a, 0x18, BakerMachine(), OfBaker, inputs);
    BakerPlace(inputs);
  }

  // ---- INS 0x03 and 0x34 ----

  function ScheduleIns(withMemo: bool): uint8 {
    if withMemo then 0x34 else 0x03
  }

  lemma {:induction false} ScheduleIsTracked(withMemo: bool, inputs: seq<Input>)
    requires Sent(ScheduleIns(withMemo), inputs) && S.Run(withMemo, ScheduleEvents(inputs)).Some?
    ensures Track(ScheduleMachine(withMemo), inputs).Some?
    decreases |inputs|
  {
    hide S.Inv, S.Confirm, S.PacketMemo, S.PacketPlain, Fits;
    var n, m := |inputs| - 1, ScheduleMachine(withMemo);
    var init, i := inputs[..n], inputs[n];
    var e := ScheduleEvents(inputs)[n];
    SentIsData(ScheduleIns(withMemo), inputs);
    assert ScheduleEvents(inputs) == ScheduleEvents(init) + [e];
    assert ScheduleEvents(inputs)[..n] == ScheduleEvents(init);
    var t := S.Run(withMemo, ScheduleEvents(init)).value;
    ScheduleLands(withMemo, t, e);
    if n == 0 {
      assert init == [] && ScheduleEvents(init) == [];
      NoScheduleEvents(withMemo);
    } else {
      ScheduleIsTracked(withMemo, init);
      SchedulePlace(withMemo, init);
    }
  }

  /** The packets and approvals of any run of a scheduled transfer take an idle application to the state of that run. */
  lemma ScheduleRunIsReached<O(!new)>(h: Handlers<Union<O>, Signing>, a: App<Union<O>, Signing>, withMemo: bool, inputs: seq<Input>,
                                     s: S.State)
    requires RunsFlows(h) && Idle(a) && Sent(ScheduleIns(withMemo), inputs) && S.Run(withMemo, ScheduleEvents(inputs)) == Some(s)
    ensures Leads(h, a, inputs, ScheduleIns(withMemo), OfSchedule(s), Signing(s.path, s.hash), !s.screen.NoScreen?)
  {
    hide Run, Refines, Sound, Track, S.Run;
    SentIsData(ScheduleIns(withMemo), inputs);
    ScheduleIsTracked(withMemo, inputs);
    ScheduleIsSound(withMemo);
    TrackedIsReached(h, a, ScheduleIns(withMemo), ScheduleMachine(withMemo), OfSchedule, inputs);
    SchedulePlace(withMemo, inputs);
  }

  // ---- INS 0x31 ----

  lemma {:induction false} CredentialIsTracked(inputs: seq<Input>)
    requires Sent(0x31, inputs) && DataInputs(inputs) && R.Run(CredentialEvents(inputs)).Some?
    ensures Track(CredentialMachine(), inputs).Some?
    decreases |inputs|
  {
    hide F.Inv, F.Packet, F.Approve, Fits;
    var n, m := |inputs| - 1, CredentialMachine();
    var init, i := inputs[..n], inputs[n];
    var e := CredentialEvents(inputs)[n];
    SentIsData(0x31, inputs);
    assert CredentialEvents(inputs) == CredentialEvents(init) + [e];
    assert CredentialEvents(inputs)[..n] == CredentialEvents(init);
    if n == 0 {
      assert init == [] && CredentialEvents(init) == [];
    } else {
      CredentialIsTracked(init);
      CredentialPlace(init);
    }
  }

  /** The packets and approvals of any run of a credential update take an idle application to the state of that run. */
  lemma CredentialRunIsReached<O(!new)>(h: Handlers<Union<O>, Signing>, a: App<Union<O>, Signing>, inputs: seq<Input>, s: F.State)
    requires RunsFlows(h) && Idle(a) && Sent(0x31, inputs)
    requires DataInputs(inputs) && R.Run(CredentialEvents(inputs)) == Some(s)
    ensures Leads(h, a, inputs, 0x31, OfCredential(s), Signing(s.path, s.hash), !s.pending.Nothing?)
  {
    hide Run, Refines, Sound, Track, R.Run;
    SentIsData(0x31, inputs);
    CredentialIsTracked(inputs);
    CredentialIsSound();
    TrackedIsReached(h, a, 0x31, CredentialMachine(), OfCredential, inputs);
    CredentialPlace(inputs);
  }
}
