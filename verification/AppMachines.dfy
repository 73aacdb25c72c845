/** The signing flows as machines: what each instruction does to its own state, and the globals it hands over. */
module AppMachines {
  import opened Bytes
  import opened DerivationPath
  import opened Flows
  import opened Latch
  import opened Options
  import opened TxHash
  import B = Baker
  import C = Contract
  import F = CredentialFlow
  import P = PltFlow
  import R = CredentialRuns
  import S = Schedule

  const INS_SCHEDULE: uint8 := 0x03
  const INS_CONFIGURE_BAKER: uint8 := 0x18
  const INS_UPDATE_CREDENTIAL: uint8 := 0x31
  const INS_SCHEDULE_AND_MEMO: uint8 := 0x34

  /** The globals a signature rests on: the parsed path and the transaction hash. */
  datatype Signing = Signing(path: Path, hash: seq<byte>)

  const NO_SIGNING := Signing(Path([], Invalid), [])

  /** A reply, and the state and globals it leaves; a review is up after `Continue` and `Sign`. */
  function Answer<T>(s: T, g: Signing, reply: Reply): Handled<T, Signing> {
    match reply
    case Ack => Stay(s, g, false)
    case Continue => Stay(s, g, true)
    case Sign => Stay(s, g, true)
    case Refuse(_) => Release(s, g)
    case Throw(_) => Thrown(g)
  }

  // ---- INS 0x07 and 0x08 ----

  function ContractOwns(s: C.State): bool {
    !s.Fresh? && !s.Stale?
  }

  function ContractGlobals(s: C.State): Signing {
    if ContractOwns(s) then Signing(s.path, C.Transcript(s)) else NO_SIGNING
  }

  function ContractPacket(which: C.Which, first: bool, s: C.State, c: Command): Handled<C.State, Signing> {
    if c.data == [] then Thrown(NO_SIGNING)
    else
      var r := C.Step(which, if first then C.Fresh else s, C.Packet(c.p1, c.data));
      Answer(r.next, ContractGlobals(r.next), r.reply)
  }

  /** Approving a contract review signs, and the flow is over. */
  function ContractMachine(which: C.Which): Machine<C.State, Signing> {
    Machine(C.Stale, s => true, (s: C.State) => s.Review?, ContractOwns, ContractGlobals, (first, s, c) => ContractPacket(which, first, s, c),
            s => Release(s, ContractGlobals(s)))
  }

  // ---- INS 0x27 ----

  const PLT_ZERO := P.State(P.Wiped, [], [], 0, [], None, Path([], Invalid), [], None)

  function PltOwns(s: P.State): bool {
    s.stage.Collecting?
  }

  function PltGlobals(s: P.State): Signing {
    Signing(s.path, s.hash)
  }

  function PltPacket(first: bool, s: P.State, c: Command): Handled<P.State, Signing> {
    var (t, reply) := P.Step(if first then s.(stage := P.Initial) else s, c.p1, c.p2, c.data);
    Answer(t, PltGlobals(t), reply)
  }

  /** The bytes, the total and the hash are in step, and a review is of the whole payload. */
  predicate PltSane(s: P.State) {
    && P.Inv(s)
    && (s.review.Some? ==>
          && s.stage.Collecting? && |s.received| == s.total
          && P.SignedAsReceived(s.received, s.review.value))
  }

  function PltMachine(): Machine<P.State, Signing> {
    Machine(PLT_ZERO, PltSane, (s: P.State) => s.review.Some?, PltOwns, PltGlobals, PltPacket, s => Release(s, PltGlobals(s)))
  }

  // ---- INS 0x18 ----

  function BakerOwns(s: B.State): bool {
    s.Live?
  }

  function BakerGlobals(s: B.State): Signing {
    if s.Live? then Signing(s.path, B.Transcript(s)) else NO_SIGNING
  }

  /** A bitmap that declares nothing is hashed, though it leaves the flow where it was. */
  function EmptyBitmapGlobals(cdata: seq<byte>): Signing {
    match StartTransaction(cdata, B.KIND_CONFIGURE_BAKER)
    case StartThrown(_) => NO_SIGNING
    case Started(path, transcript, rest) => Signing(path, transcript + (if |rest| >= 2 then rest[..2] else []))
  }

  function BakerPacket(first: bool, s: B.State, c: Command): Handled<B.State, Signing> {
    var s0 := if first then B.Initial else s;
    if !B.Inv(s0) then Thrown(NO_SIGNING)
    else
      var r := B.Step(s0, B.Packet(c.p1, c.data));
      Answer(r.next, if r.next.Live? then BakerGlobals(r.next) else EmptyBitmapGlobals(c.data), r.reply)
  }

  function BakerApprove(s: B.State): Handled<B.State, Signing> {
    if s.Live? && s.parked && !s.stage.End? then Stay(B.Confirm(s), BakerGlobals(B.Confirm(s)), false)
    else Release(s, BakerGlobals(s))
  }

  function BakerMachine(): Machine<B.State, Signing> {
    Machine(B.Stale, B.Inv, (s: B.State) => s.Live? && s.parked, BakerOwns, BakerGlobals, BakerPacket, BakerApprove)
  }

  // ---- INS 0x03 and 0x34 ----

  const SCHEDULE_ZERO := S.START.(stage := S.Wiped)

  function ScheduleOwns(s: S.State): bool {
    !s.stage.Wiped? && !s.stage.Initial?
  }

  function ScheduleGlobals(s: S.State): Signing {
    Signing(s.path, s.hash)
  }

  function SchedulePacket(withMemo: bool, first: bool, s: S.State, c: Command): Handled<S.State, Signing> {
    var s0 := if first then S.START else s;
    var r := if withMemo then S.PacketMemo(s0, c.p1, c.p2, c.data) else S.PacketPlain(s0, c.p1, c.p2, c.data);
    Answer(r.next, ScheduleGlobals(r.next), r.reply)
  }

  function ScheduleApprove(s: S.State): Handled<S.State, Signing> {
    if S.Inv(s) && (s.screen.InitialScreen? || s.screen.PairScreen?) then
      var r := S.Confirm(s);
      Answer(r.next, ScheduleGlobals(r.next), r.reply)
    else Release(s, ScheduleGlobals(s))
  }

  function ScheduleMachine(withMemo: bool): Machine<S.State, Signing> {
    Machine(SCHEDULE_ZERO, S.Inv, (s: S.State) => !s.screen.NoScreen?, ScheduleOwns, ScheduleGlobals,
            (first, s, c) => SchedulePacket(withMemo, first, s, c), ScheduleApprove)
  }

  // ---- INS 0x31 ----

  function CredentialOwns(s: F.State): bool {
    !s.phase.Start?
  }

  function CredentialGlobals(s: F.State): Signing {
    Signing(s.path, s.hash)
  }

  function CredentialPacket(first: bool, s: F.State, c: Command): Handled<F.State, Signing> {
    if c.data == [] then Thrown(NO_SIGNING)
    else
      var r := F.Packet(if first then F.START else s, c.p1, c.p2, c.data);
      Answer(r.next, CredentialGlobals(r.next), r.reply)
  }

  function CredentialApprove(s: F.State): Handled<F.State, Signing> {
    if s.pending.SignUp? then Release(s, CredentialGlobals(s))
    else
      var r := F.Approve(s);
      Answer(r.next, CredentialGlobals(r.next), r.reply)
  }

  function CredentialMachine(): Machine<F.State, Signing> {
    Machine(F.START, F.Inv, (s: F.State) => !s.pending.Nothing?, CredentialOwns, CredentialGlobals, CredentialPacket, CredentialApprove)
  }
}
