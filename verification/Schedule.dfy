/**
 Scheduled transfers, with and without a memo, as a state machine over packets and approvals:
 src/handler/sign_transfer_with_schedule.c, src/handler/sign_transfer_with_schedule_and_memo.c
 and src/helpers/sign_transfer_schedule.c.
 */
module Schedule {
  import opened Bytes
  import opened CborBlob
  import opened DerivationPath
  import opened Options
  import opened Status
  import opened TimeText
  import opened TxHash

  const KIND_SCHEDULE: byte := 19
  const KIND_SCHEDULE_WITH_MEMO: byte := 24
  const PAIR_SIZE := 16
  const PAIRS_PER_PACKET := 15

  /** The transferWithScheduleState_t values; a wiped context holds none of them. */
  datatype Stage = Wiped | Initial | AwaitingConfirm | MemoStart | MemoNext | Pairs

  /** What is waiting for the user. */
  datatype Screen = NoScreen | InitialScreen | PairScreen | SignScreen

  datatype Pair = Pair(timestamp: uint64, amount: uint64)

  /**
   The context, the transaction hash and, beside them, what has been received so far: the parts
   of the transaction in `start`, `to`, `declared`, `memo` and `shown`, the pair bytes taken
   from the packets in `wire`, and how many packets carried them.
   */
  datatype State = State(
    stage: Stage, screen: Screen, hash: seq<byte>, path: Path,
    memoLeft: nat, memo: seq<byte>,
    remaining: nat, inPacket: nat, buffer: seq<byte>, pos: nat,
    start: seq<byte>, to: seq<byte>, declared: nat, withMemo: bool, shown: seq<Pair>, wire: seq<byte>, packets: nat)

  const START := State(Initial, NoScreen, [], Path([], Invalid), 0, [], 0, 0, [], 0, [], [], 0, false, [], [], 0)

  // ---- What is signed ----

  function PairBytes(pairs: seq<Pair>): (s: seq<byte>)
    ensures |s| == PAIR_SIZE * |pairs|
  {
    if pairs == [] then []
    else PairBytes(pairs[..|pairs| - 1]) + ToBe(pairs[|pairs| - 1].timestamp, 8) + ToBe(pairs[|pairs| - 1].amount, 8)
  }

  /** The transaction up to its schedule, as the chain serialises it: the memo comes before the count. */
  function Head(s: State): seq<byte> {
    s.start + s.to + (if s.withMemo then ToBe(|s.memo| + s.memoLeft, 2) + s.memo else [])
  }

  function Count(declared: nat): (s: seq<byte>)
    ensures |s| == 1
  {
    ToBe(declared, 1)
  }

  /** A schedule is read back from its bytes in one way. */
  lemma {:induction false} PairBytesInjective(a: seq<Pair>, b: seq<Pair>)
    requires PairBytes(a) == PairBytes(b)
    ensures a == b
    decreases |a|
  {
    if a != [] {
      var x, y := a[..|a| - 1], b[..|b| - 1];
      var s := PairBytes(a);
      var n := |s| - PAIR_SIZE;
      assert PairBytes(x) == s[..n] == PairBytes(y);
      assert ToBe(a[|a| - 1].timestamp, 8) == s[n..n + 8] == ToBe(b[|b| - 1].timestamp, 8);
      assert ToBe(a[|a| - 1].amount, 8) == s[n + 8..] == ToBe(b[|b| - 1].amount, 8);
      hide ToBe;
      Pow256Values();
      ToBeInjective(a[|a| - 1].timestamp, b[|b| - 1].timestamp, 8);
      ToBeInjective(a[|a| - 1].amount, b[|b| - 1].amount, 8);
      PairBytesInjective(x, y);
    }
  }

  // ---- Steps ----

  datatype Result = Result(next: State, reply: Reply)

  /** handleHeaderAndToAddress: header, kind and recipient. */
  datatype Opening = Opening(path: Path, start: seq<byte>, to: seq<byte>, rest: seq<byte>) | OpeningThrown(sw: int)

  function ReadOpening(cdata: seq<byte>, kind: byte): (o: Opening)
    ensures o.Opening? ==> |o.start| == ACCOUNT_TRANSACTION_HEADER_LENGTH + 1 && |o.to| == ACCOUNT_ADDRESS_LENGTH
    ensures o.Opening? ==> o.start[ACCOUNT_TRANSACTION_HEADER_LENGTH] == kind
  {
    match StartTransaction(cdata, kind)
    case StartThrown(sw) => OpeningThrown(sw)
    case Started(path, transcript, rest) =>
      if |rest| < ACCOUNT_ADDRESS_LENGTH then OpeningThrown(ERROR_INVALID_TRANSACTION)
      else Opening(path, transcript, rest[..ACCOUNT_ADDRESS_LENGTH], rest[ACCOUNT_ADDRESS_LENGTH..])
  }

  /** The opening succeeds exactly when the start does and 32 bytes of recipient follow it. */
  lemma OpeningIff(cdata: seq<byte>, kind: byte, path: Path, start: seq<byte>, to: seq<byte>, rest: seq<byte>)
    ensures ReadOpening(cdata, kind) == Opening(path, start, to, rest)
       <==> StartTransaction(cdata, kind) == Started(path, start, to + rest) && |to| == ACCOUNT_ADDRESS_LENGTH
  {
    var s := StartTransaction(cdata, kind);
    if s.Started? && |s.rest| >= ACCOUNT_ADDRESS_LENGTH {
      assert s.rest == s.rest[..ACCOUNT_ADDRESS_LENGTH] + s.rest[ACCOUNT_ADDRESS_LENGTH..];
    }
    if s == Started(path, start, to + rest) && |to| == ACCOUNT_ADDRESS_LENGTH {
      assert (to + rest)[..ACCOUNT_ADDRESS_LENGTH] == to && (to + rest)[ACCOUNT_ADDRESS_LENGTH..] == rest;
    }
  }

  /** The initial packet of INS 0x03: the count is hashed at once. */
  function InitialPlain(s: State, p2: uint8, cdata: seq<byte>): Result {
    if p2 > 1 then Result(s, Throw(SWO_WRONG_P1_P2))
    else
      match ReadOpening(cdata, KIND_SCHEDULE)
      case OpeningThrown(sw) => Result(s, Throw(sw))
      case Opening(path, start, to, rest) =>
        if |rest| != 1 + (if p2 == 1 then 8 else 0) then Result(s, Throw(SWO_INCORRECT_DATA))
        else
          Result(START.(stage := AwaitingConfirm, screen := InitialScreen, hash := start + to + [rest[0]], path := path,
                        remaining := rest[0], start := start, to := to, declared := rest[0]), Continue)
  }

  /** The initial packet of INS 0x34: the count arrives first but is hashed after the memo. */
  function InitialMemo(s: State, p2: uint8, cdata: seq<byte>): Result {
    if p2 > 1 then Result(s, Throw(SWO_WRONG_P1_P2))
    else
      match ReadOpening(cdata, KIND_SCHEDULE_WITH_MEMO)
      case OpeningThrown(sw) => Result(s, Throw(sw))
      case Opening(path, start, to, rest) =>
        if |rest| != 3 + (if p2 == 1 then 8 else 0) then Result(s, Throw(SWO_INCORRECT_DATA))
        else if FromBe(rest[1..3]) > MAX_CBOR_BLOB_SIZE then Result(s, Throw(ERROR_INVALID_PARAM))
        else
          Result(START.(stage := MemoStart, hash := start + to + rest[1..3], path := path, memoLeft := FromBe(rest[1..3]),
                        remaining := rest[0], start := start, to := to, declared := rest[0], withMemo := true), Ack)
  }

  /** A memo packet; the last one decodes the blob and hashes the count. */
  function MemoPacket(s: State, p2: uint8, cdata: seq<byte>): Result
    requires s.stage.MemoStart? || s.stage.MemoNext?
  {
    if p2 != 0 then Result(s, Throw(SWO_WRONG_P1_P2))
    else if |cdata| > s.memoLeft || (s.stage.MemoStart? && (|cdata| < 1 || s.memoLeft < 1)) then
      Result(s, Throw(SWO_INCORRECT_DATA))
    else
      var memo := if s.stage.MemoStart? then cdata else s.memo + cdata;
      var s' := s.(memo := memo, memoLeft := s.memoLeft - |cdata|, hash := s.hash + cdata);
      if s'.memoLeft > 0 then Result(s'.(stage := MemoNext), Ack)
      else
        match ParseBlob(memo)
        case Refused(sw) => Result(s, Refuse(sw))
        case Accepted(_) =>
          Result(s'.(stage := Pairs, screen := InitialScreen, hash := s'.hash + Count(s.remaining)), Continue)
  }

  /** processNextScheduledAmount: hash and show the next pair of the packet, or ask for another packet. */
  function ShowNext(s: State): Result
    requires s.pos + PAIR_SIZE * s.inPacket == |s.buffer|
  {
    if s.inPacket == 0 then Result(s.(screen := NoScreen), Ack)
    else
      var timestamp, amount := U64At(s.buffer, s.pos), U64At(s.buffer, s.pos + 8);
      if timestamp >= RELEASE_LIMIT then Result(s, Throw(ERROR_INVALID_PARAM))
      else
        var last := s.remaining == 0 && s.inPacket == 1;
        Result(s.(hash := s.hash + s.buffer[s.pos..s.pos + PAIR_SIZE], pos := s.pos + PAIR_SIZE, inPacket := s.inPacket - 1,
                  shown := s.shown + [Pair(timestamp, amount)], screen := if last then SignScreen else PairScreen),
               if last then Sign else Continue)
  }

  function U64At(buffer: seq<byte>, i: nat): (n: uint64)
    requires i + 8 <= |buffer|
    ensures n == FromBe(buffer[i..i + 8])
  {
    Pow256Values();
    FromBe(buffer[i..i + 8])
  }

  function Min(a: nat, b: nat): nat {
    if a <= b then a else b
  }

  /** handle_transfer_pairs: take up to 15 of the pairs still owed from this packet. */
  function PairsPacket(s: State, p2: uint8, cdata: seq<byte>): Result {
    if p2 != 0 then Result(s, Throw(SWO_WRONG_P1_P2))
    else
      var n := Min(s.remaining, PAIRS_PER_PACKET);
      if |cdata| < PAIR_SIZE * n then Result(s, Throw(SWO_INCORRECT_DATA))
      else
        ShowNext(Take(s, n, cdata[..PAIR_SIZE * n]))
  }

  function Take(s: State, n: nat, taken: seq<byte>): State
    requires n <= s.remaining
  {
    s.(inPacket := n, remaining := s.remaining - n, pos := 0, buffer := taken, wire := s.wire + taken,
       packets := s.packets + 1)
  }

  /** handle_sign_transfer_with_schedule */
  function PacketPlain(s: State, p1: uint8, p2: uint8, cdata: seq<byte>): Result {
    if p1 == 0 && s.stage.Initial? then InitialPlain(s, p2, cdata)
    else if p1 == 1 && s.stage.Pairs? then PairsPacket(s, p2, cdata)
    else Result(s, Throw(ERROR_INVALID_PARAM))
  }

  /** handle_sign_transfer_with_schedule_and_memo */
  function PacketMemo(s: State, p1: uint8, p2: uint8, cdata: seq<byte>): Result {
    if p1 == 2 && s.stage.Initial? then InitialMemo(s, p2, cdata)
    else if p1 == 3 && (s.stage.MemoStart? || s.stage.MemoNext?) then MemoPacket(s, p2, cdata)
    else if p1 == 1 && s.stage.Pairs? then PairsPacket(s, p2, cdata)
    else Result(s, Throw(ERROR_INVALID_PARAM))
  }

  /** The user accepts the screen: confirmInitialScheduledTransfer, or the next pair. */
  function Confirm(s: State): Result
    requires s.screen.PairScreen? ==> s.pos + PAIR_SIZE * s.inPacket == |s.buffer|
  {
    match s.screen
    case InitialScreen => Result(s.(stage := Pairs, screen := NoScreen), Ack)
    case PairScreen => ShowNext(s)
    case _ => Result(s, Ack)
  }

  // ---- Invariant and runs ----

  /** Holds in every state a live flow can be in. */
  predicate Inv(s: State) {
    && s.declared <= UINT8_MAX
    && (!s.stage.Wiped? && !s.stage.Initial? ==> Opened(s))
    && (s.stage.Wiped? || s.stage.Initial? ==> s.screen.NoScreen?)
    && (s.stage.AwaitingConfirm? ==> s.screen.InitialScreen? && !s.withMemo)
    && (s.stage.MemoStart? || s.stage.MemoNext? ==>
          && s.screen.NoScreen? && s.withMemo && s.shown == [] && s.packets == 0 && s.inPacket == 0
          && s.wire == [] && s.buffer == [] && s.pos == 0
          && (s.stage.MemoStart? ==> s.memo == []) && s.remaining == s.declared
          && |s.memo| + s.memoLeft <= MAX_CBOR_BLOB_SIZE
          && s.hash == Head(s))
    && (s.stage.AwaitingConfirm? || s.stage.Pairs? ==> Counting(s))
  }

  /** The header, the kind of the instruction and the recipient have been read. */
  predicate Opened(s: State) {
    && |s.start| == ACCOUNT_TRANSACTION_HEADER_LENGTH + 1 && |s.to| == ACCOUNT_ADDRESS_LENGTH
    && s.start[ACCOUNT_TRANSACTION_HEADER_LENGTH] == (if s.withMemo then KIND_SCHEDULE_WITH_MEMO else KIND_SCHEDULE)
  }

  /** The conservation law of the schedule, and what the hash covers of it. */
  predicate Counting(s: State) {
    && s.declared == |s.shown| + s.inPacket + s.remaining
    && s.pos + PAIR_SIZE * s.inPacket == |s.buffer| <= PAIR_SIZE * PAIRS_PER_PACKET
    && s.remaining == s.declared - Min(s.declared, PAIRS_PER_PACKET * s.packets)
    && (s.declared > 0 ==> PAIRS_PER_PACKET * (s.packets - 1) < s.declared)
    && s.wire == PairBytes(s.shown) + s.buffer[s.pos..]
    && (s.withMemo ==> s.memoLeft == 0 && ParseBlob(s.memo).Accepted?)
    && s.hash == Head(s) + Count(s.declared) + PairBytes(s.shown)
    && (s.screen.NoScreen? || s.screen.InitialScreen? ==> s.inPacket == 0)
    && (s.screen.InitialScreen? ==> s.packets == 0)
    && (s.screen.PairScreen? ==> s.shown != [] && (s.inPacket > 0 || s.remaining > 0))
    && (s.screen.SignScreen? <==> s.shown != [] && |s.shown| == s.declared)
  }

  datatype Event = Packet(p1: uint8, p2: uint8, cdata: seq<byte>) | Approve

  function Step(s: State, withMemo: bool, e: Event): Result
    requires Inv(s)
  {
    match e
    case Packet(p1, p2, cdata) => if withMemo then PacketMemo(s, p1, p2, cdata) else PacketPlain(s, p1, p2, cdata)
    case Approve => Confirm(s)
  }

  /** No packet is delivered while a reply to the host is pending; approving the last screen signs and ends the flow. */
  predicate Deliverable(s: State, e: Event) {
    if e.Packet? then s.screen.NoScreen? else s.screen.InitialScreen? || s.screen.PairScreen?
  }

  /** A packet has been taken and its pairs are being shown. */
  predicate Showing(s: State) {
    && Opened(s)
    && s.stage.Pairs? && s.declared == |s.shown| + s.inPacket + s.remaining && s.declared <= UINT8_MAX
    && (s.declared > 0 ==> PAIRS_PER_PACKET * (s.packets - 1) < s.declared)
    && s.pos + PAIR_SIZE * s.inPacket == |s.buffer| <= PAIR_SIZE * PAIRS_PER_PACKET
    && s.remaining == s.declared - Min(s.declared, PAIRS_PER_PACKET * s.packets)
    && s.wire == PairBytes(s.shown) + s.buffer[s.pos..]
    && (s.withMemo ==> s.memoLeft == 0 && ParseBlob(s.memo).Accepted?)
    && s.hash == Head(s) + Count(s.declared) + PairBytes(s.shown)
    && (s.inPacket == 0 ==> s.shown == [] || |s.shown| < s.declared)
  }

  lemma ShowNextKeepsInv(s: State)
    requires Showing(s)
    ensures ShowNext(s).reply.Open() ==> Inv(ShowNext(s).next)
  {
    hide ParseBlob, ToBe, FromBe, PairBytes, Count, Head;
    var r := ShowNext(s);
    HeadIgnoresPairs(s, r.next);
    if s.inPacket > 0 && r.reply.Open() {
      OnePairMoves(s.shown, s.buffer, s.pos);
      var raw := s.buffer[s.pos..s.pos + PAIR_SIZE];
      assert r.next.hash == Head(s) + Count(s.declared) + (PairBytes(s.shown) + raw);
    }
  }

  lemma HeadIgnoresPairs(s: State, t: State)
    requires s.start == t.start && s.to == t.to && s.withMemo == t.withMemo && s.memo == t.memo && s.memoLeft == t.memoLeft
    ensures Head(s) == Head(t)
  {
  }

  /** Showing a pair moves its sixteen bytes from the packet to the shown pairs. */
  lemma OnePairMoves(shown: seq<Pair>, buffer: seq<byte>, pos: nat)
    requires pos + PAIR_SIZE <= |buffer|
    ensures var more := shown + [Pair(U64At(buffer, pos), U64At(buffer, pos + 8))];
      && PairBytes(more) == PairBytes(shown) + buffer[pos..pos + PAIR_SIZE]
      && PairBytes(shown) + buffer[pos..] == PairBytes(more) + buffer[pos + PAIR_SIZE..]
  {
    var p := Pair(U64At(buffer, pos), U64At(buffer, pos + 8));
    PairIsItsBytes(buffer, pos);
    PairBytesAppend(shown, p);
    assert buffer[pos..] == buffer[pos..pos + PAIR_SIZE] + buffer[pos + PAIR_SIZE..];
  }

  lemma PairBytesAppend(pairs: seq<Pair>, p: Pair)
    ensures PairBytes(pairs + [p]) == PairBytes(pairs) + (ToBe(p.timestamp, 8) + ToBe(p.amount, 8))
  {
    assert (pairs + [p])[..|pairs|] == pairs;
  }

  lemma PairIsItsBytes(buffer: seq<byte>, pos: nat)
    requires pos + PAIR_SIZE <= |buffer|
    ensures ToBe(U64At(buffer, pos), 8) + ToBe(U64At(buffer, pos + 8), 8) == buffer[pos..pos + PAIR_SIZE]
  {
    ToBeFromBe(buffer[pos..pos + 8]);
    ToBeFromBe(buffer[pos + 8..pos + 16]);
  }

  lemma TakenIsShowing(s: State, n: nat, taken: seq<byte>)
    requires s.stage.Pairs? && s.screen.NoScreen? && Inv(s)
    requires n == Min(s.remaining, PAIRS_PER_PACKET) && |taken| == PAIR_SIZE * n
    ensures Showing(Take(s, n, taken))
  {
    hide Head, ParseBlob, PairBytes, Count;
    HeadIgnoresPairs(s, Take(s, n, taken));
    assert s.buffer[s.pos..] == [] && taken[0..] == taken;
    assert s.wire == PairBytes(s.shown);
  }

  lemma PairsPacketKeepsInv(s: State, p2: uint8, cdata: seq<byte>)
    requires Inv(s) && s.stage.Pairs? && s.screen.NoScreen?
    ensures PairsPacket(s, p2, cdata).reply.Open() ==> Inv(PairsPacket(s, p2, cdata).next)
  {
    hide Head, ParseBlob, PairBytes, Count, ShowNext, Showing;
    var n := Min(s.remaining, PAIRS_PER_PACKET);
    if p2 == 0 && |cdata| >= PAIR_SIZE * n {
      TakenIsShowing(s, n, cdata[..PAIR_SIZE * n]);
      ShowNextKeepsInv(Take(s, n, cdata[..PAIR_SIZE * n]));
    }
  }

  lemma MemoPacketKeepsInv(s: State, p2: uint8, cdata: seq<byte>)
    requires Inv(s) && (s.stage.MemoStart? || s.stage.MemoNext?)
    ensures MemoPacket(s, p2, cdata).reply.Open() ==> Inv(MemoPacket(s, p2, cdata).next)
  {
    hide ParseBlob, ToBe, FromBe, Head, PairBytes, Count;
    var r := MemoPacket(s, p2, cdata);
    if r.reply.Open() {
      MemoGrows(s, r.next, cdata);
      assert PairBytes([]) == [] by { NoPairs(); }
    }
  }

  lemma NoPairs()
    ensures PairBytes([]) == []
  {
  }

  lemma MemoGrows(s: State, t: State, cdata: seq<byte>)
    requires s.withMemo && t.withMemo && t.start == s.start && t.to == s.to
    requires t.memo == s.memo + cdata && |t.memo| + t.memoLeft == |s.memo| + s.memoLeft
    ensures Head(t) == Head(s) + cdata
  {
  }

  lemma InitialKeepsInv(s: State, withMemo: bool, p2: uint8, cdata: seq<byte>)
    ensures var r := if withMemo then InitialMemo(s, p2, cdata) else InitialPlain(s, p2, cdata);
      r.reply.Open() ==> Inv(r.next)
  {
    var r := if withMemo then InitialMemo(s, p2, cdata) else InitialPlain(s, p2, cdata);
    if r.reply.Open() {
      var rest := ReadOpening(cdata, if withMemo then KIND_SCHEDULE_WITH_MEMO else KIND_SCHEDULE).rest;
      if withMemo {
        ToBeFromBe(rest[1..3]);
        assert Head(r.next) == r.next.hash;
      } else {
        assert Count(rest[0]) == [rest[0]] by {
          assert ToBe(rest[0], 1) == ToBe(rest[0] / 256, 0) + [rest[0] % 256];
        }
        assert Head(r.next) + Count(rest[0]) + PairBytes([]) == r.next.hash;
      }
    }
  }

  lemma ConfirmInitialKeepsInv(s: State)
    requires Inv(s) && s.screen.InitialScreen?
    ensures Inv(Confirm(s).next)
  {
  }

  lemma StepKeepsInv(s: State, withMemo: bool, e: Event)
    requires Inv(s) && Deliverable(s, e) && Step(s, withMemo, e).reply.Open()
    ensures Inv(Step(s, withMemo, e).next)
  {
    hide InitialMemo, InitialPlain, MemoPacket, PairsPacket, ShowNext, ParseBlob, Head, PairBytes, ToBe;
    match e
    case Packet(p1, p2, cdata) =>
      if s.stage.Initial? {
        InitialKeepsInv(s, withMemo, p2, cdata);
      } else if s.stage.Pairs? {
        PairsPacketKeepsInv(s, p2, cdata);
      } else {
        MemoPacketKeepsInv(s, p2, cdata);
      }
    case Approve =>
      if s.screen.PairScreen? {
        ShowNextKeepsInv(s);
      } else {
        ConfirmInitialKeepsInv(s);
      }
  }

  /** Where the events of one flow lead, if all of them can happen and are accepted; the invariant holds there. */
  function Run(withMemo: bool, events: seq<Event>): (r: Option<State>)
    ensures r.Some? ==> Inv(r.value)
    decreases |events|
  {
    if events == [] then Some(START)
    else
      match Run(withMemo, events[..|events| - 1])
      case None => None
      case Some(s) => After(s, withMemo, events[|events| - 1])
  }

  function After(s: State, withMemo: bool, e: Event): (r: Option<State>)
    requires Inv(s)
    ensures r.Some? ==> Inv(r.value)
  {
    if Deliverable(s, e) && Step(s, withMemo, e).reply.Open() then
      StepKeepsInv(s, withMemo, e);
      Some(Step(s, withMemo, e).next)
    else None
  }

  /**
   At the signing screen all N declared pairs, and N is at least one, were hashed and shown in
   the order they were sent, in ceil(N / 15) packets, and the hash is one serialisation.
   */
  lemma SignedScheduleIsComplete(s: State, withMemo: bool, events: seq<Event>)
    requires Run(withMemo, events) == Some(s) && s.screen.SignScreen?
    ensures |s.shown| == s.declared >= 1 && s.wire == PairBytes(s.shown)
    ensures s.packets == (s.declared + PAIRS_PER_PACKET - 1) / PAIRS_PER_PACKET
    ensures s.hash == s.start + s.to + (if s.withMemo then ToBe(|s.memo|, 2) + s.memo else [])
                      + Count(s.declared) + PairBytes(s.shown)
    ensures s.withMemo ==> ParseBlob(s.memo).Accepted?
  {
    hide ParseBlob, PairBytes, ToBe, Count, Run;
    assert Inv(s);
  }

  /** Nothing was ever declared, so nothing can be signed. */
  lemma EmptyScheduleNeverSigns(s: State, withMemo: bool, events: seq<Event>)
    requires Run(withMemo, events) == Some(s) && s.declared == 0
    ensures !s.screen.SignScreen?
  {
    hide Run;
    assert Inv(s);
  }
}
