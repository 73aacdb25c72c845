/** The context the two scheduled-transfer handlers update in place, refining the steps of Schedule. */
module ScheduleHandler {
  import opened Bytes
  import opened CborBlob
  import opened DerivationPath
  import opened Schedule
  import opened Status
  import opened TimeText
  import opened TxHash

  const BUFFER_SIZE := 255

  /** signTransferWithScheduleContext_t, with the memo context beside it. */
  class ScheduledTransfer {
    var stage: Stage
    var screen: Screen
    var remainingNumberOfScheduledAmounts: uint8
    var scheduledAmountsInCurrentPacket: uint8
    const buffer: array<byte>
    var pos: uint8
    const displayTimestamp: array<byte>
    var displayAmount: uint64
    const memo: CborContext
    // Outside the instruction context.
    var hash: seq<byte>
    var path: Path
    // The state of Schedule these fields stand for.
    ghost var model: State

    ghost predicate Shape()
      reads this, memo
    {
      && buffer.Length == BUFFER_SIZE && displayTimestamp.Length == TIMESTAMP_SIZE
      && memo.Valid() && buffer != displayTimestamp && {memo.cborBuf, memo.display} !! {buffer, displayTimestamp}
    }

    ghost predicate Valid()
      reads this, buffer, memo, memo.cborBuf
    {
      && Shape()
      && pos + PAIR_SIZE * scheduledAmountsInCurrentPacket <= PAIR_SIZE * PAIRS_PER_PACKET
      && model.stage == stage && model.screen == screen
      && model.memoLeft == memo.cborLength && model.memo == memo.Received()
      && model.remaining == remainingNumberOfScheduledAmounts
      && model.inPacket == scheduledAmountsInCurrentPacket && model.pos == pos
      && model.buffer == buffer[..pos + PAIR_SIZE * scheduledAmountsInCurrentPacket]
      && (stage == Initial ==> model == START)
      && (stage != Initial && stage != Wiped ==> model.hash == hash && model.path == path)
    }

    /** The review on screen shows the last pair of the schedule so far. */
    ghost predicate ShowsLastPair()
      reads this, displayTimestamp
    {
      && model.shown != []
      && ShowsRelease(CString(displayTimestamp[..]), model.shown[|model.shown| - 1].timestamp)
      && displayAmount == model.shown[|model.shown| - 1].amount
    }

    ghost predicate Cleared()
      reads this, memo
    {
      && stage == Wiped && screen == NoScreen && memo.cborLength == 0 && memo.cborBufLen == 0
      && remainingNumberOfScheduledAmounts == 0 && scheduledAmountsInCurrentPacket == 0 && pos == 0
    }

    constructor ()
      ensures Valid() && Cleared()
    {
      stage, screen, remainingNumberOfScheduledAmounts, scheduledAmountsInCurrentPacket := Wiped, NoScreen, 0, 0;
      pos, displayAmount, hash, path := 0, 0, [], Path([], Invalid);
      model := START.(stage := Wiped);
      buffer := new byte[BUFFER_SIZE](_ => 0);
      displayTimestamp := new byte[TIMESTAMP_SIZE](_ => 0);
      memo := new CborContext();
      new;
      assert memo.cborBufLen == 0 by { assert |memo.Received()| == memo.cborBufLen; }
    }

    /** The dispatch guard, after a throw: the context is wiped. */
    method Clear()
      requires Shape()
      modifies this`stage, this`screen, this`remainingNumberOfScheduledAmounts, this`scheduledAmountsInCurrentPacket,
               this`pos, this`displayAmount, this`model, memo`cborLength, memo`cborBufLen, memo`displayLen, memo`typeLabel
      ensures Valid() && Cleared()
    {
      stage, screen, remainingNumberOfScheduledAmounts, scheduledAmountsInCurrentPacket := Wiped, NoScreen, 0, 0;
      pos, displayAmount := 0, 0;
      memo.cborLength, memo.cborBufLen, memo.displayLen, memo.typeLabel := 0, 0, 0, "";
      model := START.(stage := Wiped);
    }

    /** processNextScheduledAmount; the two overflow throws on `pos` cannot be reached. */
    method ProcessNextScheduledAmount() returns (reply: Reply)
      requires Valid() && stage == Pairs
      modifies this`screen, this`hash, this`pos, this`scheduledAmountsInCurrentPacket, this`displayAmount, this`model,
               displayTimestamp
      ensures Shape() && reply == ShowNext(old(model)).reply
      ensures reply.Open() ==> Valid() && model == ShowNext(old(model)).next
      ensures reply == Continue || reply == Sign ==> ShowsLastPair()
    {
      hide FromBe, ShowsRelease, CString, U64At, CborContext.Valid, CborContext.Received;
      ghost var was := model;
      if scheduledAmountsInCurrentPacket == 0 {
        screen := NoScreen;
        model := ShowNext(was).next;
        return Ack;
      }
      var o := HashPair(was.buffer);
      if o.Thrown? {
        return Throw(o.sw);
      }
      scheduledAmountsInCurrentPacket := scheduledAmountsInCurrentPacket - 1;
      if remainingNumberOfScheduledAmounts == 0 && scheduledAmountsInCurrentPacket == 0 {
        screen := SignScreen;
        reply := Sign;
      } else {
        screen := PairScreen;
        reply := Continue;
      }
      model := ShowNext(was).next;
    }

    /** Hash a pair of the packet, and prepare its two rows. */
    method HashPair(ghost packet: seq<byte>) returns (o: Outcome)
      requires buffer.Length == BUFFER_SIZE && displayTimestamp.Length == TIMESTAMP_SIZE && buffer != displayTimestamp
      requires pos + 16 <= |packet| <= BUFFER_SIZE && packet == buffer[..|packet|]
      modifies this`hash, this`pos, this`displayAmount, displayTimestamp
      ensures o == if U64At(packet, old(pos)) < RELEASE_LIMIT then Returned else Thrown(ERROR_INVALID_PARAM)
      ensures o.Returned? ==>
                && pos == old(pos) + 16 && hash == old(hash) + packet[old(pos)..old(pos) + 16]
                && ShowsRelease(CString(displayTimestamp[..]), U64At(packet, old(pos)))
                && displayAmount == U64At(packet, old(pos) + 8)
    {
      hide FromBe, ShowsRelease, CString, U64At;
      ghost var start := pos;
      if pos + 8 > buffer.Length {
        assert false;
        return Thrown(ERROR_BUFFER_OVERFLOW);
      }
      var timestampMs := HashWord(packet);
      o := ShowRelease(timestampMs, displayTimestamp);
      if o.Thrown? {
        return;
      }
      if pos + 8 > buffer.Length {
        assert false;
        return Thrown(ERROR_BUFFER_OVERFLOW);
      }
      displayAmount := HashWord(packet);
      assert packet[start..start + 16] == packet[start..start + 8] + packet[start + 8..start + 16];
    }

    /** Hash the eight bytes at `pos` of the packet and read them as a number. */
    method HashWord(ghost packet: seq<byte>) returns (value: uint64)
      requires buffer.Length == BUFFER_SIZE && pos + 8 <= |packet| <= BUFFER_SIZE && packet == buffer[..|packet|]
      modifies this`hash, this`pos
      ensures pos == old(pos) + 8 && hash == old(hash) + packet[old(pos)..old(pos) + 8]
      ensures value == U64At(packet, old(pos))
    {
      hide FromBe;
      assert buffer[pos..pos + 8] == packet[pos..pos + 8];
      value := U64At(buffer[..], pos);
      hash := hash + buffer[pos..pos + 8];
      pos := pos + 8;
    }

    /** handle_transfer_pairs */
    method HandleTransferPairs(p2: uint8, cdata: seq<byte>) returns (reply: Reply)
      requires Valid() && stage == Pairs && |cdata| <= UINT8_MAX
      modifies this, buffer, displayTimestamp
      ensures Shape() && reply == PairsPacket(old(model), p2, cdata).reply
      ensures reply.Open() ==> Valid() && model == PairsPacket(old(model), p2, cdata).next
      ensures reply == Continue || reply == Sign ==> ShowsLastPair()
    {
      hide ShowNext, ShowsRelease, CString;
      if p2 != 0 {
        return Throw(SWO_WRONG_P1_P2);
      }
      scheduledAmountsInCurrentPacket, pos := 0, 0;
      var taken: uint8;
      if remainingNumberOfScheduledAmounts <= 15 {
        taken := remainingNumberOfScheduledAmounts;
        remainingNumberOfScheduledAmounts := 0;
      } else {
        taken := 15;
        remainingNumberOfScheduledAmounts := remainingNumberOfScheduledAmounts - 15;
      }
      if taken * 16 > buffer.Length || |cdata| < taken * 16 {
        return Throw(SWO_INCORRECT_DATA);
      }
      scheduledAmountsInCurrentPacket := taken;
      forall i | 0 <= i < 16 * taken {
        buffer[i] := cdata[i];
      }
      assert buffer[..16 * taken] == cdata[..16 * taken];
      model := Take(model, taken, cdata[..16 * taken]);
      reply := ProcessNextScheduledAmount();
    }

    /** The initial packet of handle_sign_transfer_with_schedule. */
    method HandleInitialPlain(p2: uint8, cdata: seq<byte>) returns (reply: Reply)
      requires Valid() && stage == Initial
      modifies this
      ensures Shape() && reply == InitialPlain(old(model), p2, cdata).reply
      ensures reply.Open() ==> Valid() && model == InitialPlain(old(model), p2, cdata).next
    {
      hide ReadOpening;
      if p2 > 1 {
        return Throw(SWO_WRONG_P1_P2);
      }
      var feeSuffix := if p2 == 1 then 8 else 0;
      var opening := ReadOpening(cdata, KIND_SCHEDULE);
      if opening.OpeningThrown? {
        return Throw(opening.sw);
      }
      path, hash := opening.path, opening.start + opening.to;
      if |opening.rest| != 1 + feeSuffix {
        return Throw(SWO_INCORRECT_DATA);
      }
      remainingNumberOfScheduledAmounts := opening.rest[0];
      hash := hash + [opening.rest[0]];
      stage, screen := AwaitingConfirm, InitialScreen;
      model := InitialPlain(model, p2, cdata).next;
      reply := Continue;
    }

    /** The initial packet of handle_sign_transfer_with_schedule_and_memo. */
    method HandleInitialMemo(p2: uint8, cdata: seq<byte>) returns (reply: Reply)
      requires Valid() && stage == Initial
      modifies this, memo`cborLength
      ensures Shape() && reply == InitialMemo(old(model), p2, cdata).reply
      ensures reply.Open() ==> Valid() && model == InitialMemo(old(model), p2, cdata).next
    {
      hide ReadOpening, FromBe;
      if p2 > 1 {
        return Throw(SWO_WRONG_P1_P2);
      }
      var feeSuffix := if p2 == 1 then 8 else 0;
      var opening := ReadOpening(cdata, KIND_SCHEDULE_WITH_MEMO);
      if opening.OpeningThrown? {
        return Throw(opening.sw);
      }
      path, hash := opening.path, opening.start + opening.to;
      if |opening.rest| != 3 + feeSuffix {
        return Throw(SWO_INCORRECT_DATA);
      }
      remainingNumberOfScheduledAmounts := opening.rest[0];
      var cborLength := FromBe(opening.rest[1..3]);
      if cborLength > MAX_CBOR_BLOB_SIZE {
        return Throw(ERROR_INVALID_PARAM);
      }
      memo.cborLength := cborLength;
      hash := hash + opening.rest[1..3];
      stage, screen := MemoStart, NoScreen;
      model := InitialMemo(model, p2, cdata).next;
      reply := Ack;
    }

    /** finish_memo_scheduled */
    method FinishMemoScheduled()
      modifies this`hash, this`stage, this`screen
      ensures stage == Pairs && screen == InitialScreen
      ensures hash == old(hash) + Count(remainingNumberOfScheduledAmounts)
    {
      assert Count(remainingNumberOfScheduledAmounts) == [remainingNumberOfScheduledAmounts] by {
        assert ToBe(remainingNumberOfScheduledAmounts, 1)
            == ToBe(remainingNumberOfScheduledAmounts / 256, 0) + [remainingNumberOfScheduledAmounts % 256];
      }
      hash := hash + [remainingNumberOfScheduledAmounts];
      stage, screen := Pairs, InitialScreen;
    }

    /** The first memo packet starts the accumulation, a later one continues it. */
    method ReadMemo(cdata: seq<byte>) returns (o: Outcome, sw: int)
      requires memo.Valid() && |cdata| <= UINT8_MAX
      modifies memo, memo.cborBuf, memo.display
      ensures memo.Valid()
      ensures o == if |cdata| > old(memo.cborLength) || (stage == MemoStart && (|cdata| < 1 || old(memo.cborLength) < 1))
                   then Thrown(SWO_INCORRECT_DATA) else Returned
      ensures o.Returned? ==>
                && memo.Received() == (if stage == MemoStart then cdata else old(memo.Received()) + cdata)
                && memo.cborLength == old(memo.cborLength) - |cdata|
                && (memo.cborLength > 0 ==> sw == SWO_SUCCESS)
                && (memo.cborLength == 0 ==>
                      match ParseBlob(memo.Received())
                      case Accepted(item) => sw == SWO_SUCCESS && memo.Shows(item)
                      case Refused(e) => sw == e && sw != SWO_SUCCESS)
    {
      hide ParseBlob, CString, CborContext.Shows;
      if stage == MemoStart {
        o, sw := memo.ReadCborInitial(cdata);
      } else {
        o, sw := memo.ReadCborContent(cdata);
      }
    }

    /** The memo packets: hash, accumulate, and go on once the declared length has arrived. */
    method HandleMemo(p2: uint8, cdata: seq<byte>) returns (reply: Reply)
      requires Valid() && |cdata| <= UINT8_MAX && (stage == MemoStart || stage == MemoNext)
      modifies this`hash, this`stage, this`screen, this`model, memo, memo.cborBuf, memo.display
      ensures Shape() && reply == MemoPacket(old(model), p2, cdata).reply
      ensures reply.Open() ==> Valid() && model == MemoPacket(old(model), p2, cdata).next
      ensures reply == Continue ==> memo.Shows(ParseBlob(model.memo).item)
    {
      hide ParseBlob, Count, FromBe, ToBe, CString, CborContext.Shows;
      if p2 != 0 {
        return Throw(SWO_WRONG_P1_P2);
      }
      hash := hash + cdata;
      var o, sw := ReadMemo(cdata);
      if o.Thrown? {
        return Throw(o.sw);
      }
      if sw != SWO_SUCCESS {
        return Refuse(sw);
      }
      ghost var was := model;
      model := MemoPacket(was, p2, cdata).next;
      if memo.cborLength == 0 {
        FinishMemoScheduled();
        return Continue;
      }
      stage := MemoNext;
      return Ack;
    }

    /** Entering a handler for the first time: the wiped context becomes the initial one. */
    method Enter(isInitialCall: bool)
      requires Valid() && (isInitialCall ==> Cleared())
      modifies this`stage, this`model
      ensures Valid() && model == if isInitialCall then START else old(model)
    {
      if isInitialCall {
        stage, model := Initial, START;
      }
    }

    /** handle_sign_transfer_with_schedule */
    method HandlePlain(p1: uint8, p2: uint8, cdata: seq<byte>, isInitialCall: bool) returns (reply: Reply)
      requires Valid() && |cdata| <= UINT8_MAX && (isInitialCall ==> Cleared())
      modifies this, buffer, displayTimestamp, memo`cborLength, memo`cborBufLen, memo`displayLen, memo`typeLabel
      ensures var s := if isInitialCall then START else old(model);
        && reply == PacketPlain(s, p1, p2, cdata).reply
        && (reply.Open() ==> Valid() && model == PacketPlain(s, p1, p2, cdata).next)
      ensures reply.Throw? ==> Valid() && Cleared()
    {
      hide PairsPacket, InitialPlain;
      Enter(isInitialCall);
      if p1 == 0 && stage == Initial {
        reply := HandleInitialPlain(p2, cdata);
      } else if p1 == 1 && stage == Pairs {
        reply := HandleTransferPairs(p2, cdata);
      } else {
        reply := Throw(ERROR_INVALID_PARAM);
      }
      if reply.Throw? {
        Clear();
      }
    }

    /** handle_sign_transfer_with_schedule_and_memo */
    method HandleWithMemo(p1: uint8, p2: uint8, cdata: seq<byte>, isInitialCall: bool) returns (reply: Reply)
      requires Valid() && |cdata| <= UINT8_MAX && (isInitialCall ==> Cleared())
      modifies this, buffer, displayTimestamp, memo, memo.cborBuf, memo.display
      ensures var s := if isInitialCall then START else old(model);
        && reply == PacketMemo(s, p1, p2, cdata).reply
        && (reply.Open() ==> Valid() && model == PacketMemo(s, p1, p2, cdata).next)
      ensures reply.Throw? ==> Valid() && Cleared()
    {
      hide PairsPacket, InitialMemo, MemoPacket;
      Enter(isInitialCall);
      if p1 == 2 && stage == Initial {
        reply := HandleInitialMemo(p2, cdata);
      } else if p1 == 3 && (stage == MemoStart || stage == MemoNext) {
        reply := HandleMemo(p2, cdata);
      } else if p1 == 1 && stage == Pairs {
        reply := HandleTransferPairs(p2, cdata);
      } else {
        reply := Throw(ERROR_INVALID_PARAM);
      }
      if reply.Throw? {
        Clear();
      }
    }

    /** The approval callbacks: confirmInitialScheduledTransfer, or the next pair. */
    method Approve() returns (reply: Reply)
      requires Valid() && Inv(model) && (screen == InitialScreen || screen == PairScreen)
      modifies this, displayTimestamp, memo`cborLength, memo`cborBufLen, memo`displayLen, memo`typeLabel
      ensures reply == Confirm(old(model)).reply
      ensures reply.Open() ==> Valid() && model == Confirm(old(model)).next
      ensures reply == Continue || reply == Sign ==> ShowsLastPair()
      ensures reply.Throw? ==> Valid() && Cleared()
    {
      hide ShowNext, Counting, ShowsRelease, CString;
      if screen == InitialScreen {
        stage, screen := Pairs, NoScreen;
        model := Confirm(model).next;
        reply := Ack;
      } else {
        reply := ProcessNextScheduledAmount();
        if reply.Throw? {
          Clear();
        }
      }
    }
  }
}
