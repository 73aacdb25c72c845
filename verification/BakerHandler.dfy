/** The context handle_sign_configure_baker updates in place, refining the steps of Baker. */
module BakerHandler {
  import opened Baker
  import opened Bytes
  import opened DerivationPath
  import opened Options
  import opened Status
  import opened TxHash

  const URL_DISPLAY_SIZE := 256

  /** configureBakerState_t; a wiped context holds none of its values. */
  datatype Wire =
    | WipedState | InitialState | FirstState | AggregationState | UrlLengthState | UrlState
    | CommissionRatesState | SuspendedState | EndState | AwaitingConfirm

  function WireOf(s: Stage): Wire {
    match s
    case FirstBatch => FirstState
    case Aggregation => AggregationState
    case UrlLength => UrlLengthState
    case UrlBytes => UrlState
    case CommissionRates => CommissionRatesState
    case Suspended => SuspendedState
    case End => EndState
  }

  /** signConfigureBaker_t */
  class BakerContext {
    var has: Flags
    var stopBaking: bool
    var capital: uint64
    var displayRestake: string
    var displayOpenForDelegation: string
    var urlLength: uint16
    const urlDisplay: array<byte>
    var feeRate: uint32
    var rewardRate: uint32
    var finalizationRate: uint32
    var suspended: string
    var keysHash: seq<byte>
    var state: Wire
    var pendingState: Wire
    // Outside the instruction context.
    var hash: seq<byte>
    var path: Path
    // The state of Baker these fields stand for.
    ghost var model: State

    ghost predicate Valid()
      reads this
    {
      && urlDisplay.Length == URL_DISPLAY_SIZE && Inv(model)
      && match model
         case Initial => state == InitialState
         case Stale => state == WipedState
         case Live(_, _, _, stage, parked, got, left) =>
           && hash == Transcript(model) && path == model.path && has == model.has
           && state == (if parked then AwaitingConfirm else WireOf(stage))
           && (parked ==> pendingState == WireOf(stage))
           && (stage == UrlBytes ==> urlLength == left)
           && (stage == Aggregation ==> ShowsFirst(got))
           && (has.keys ==> keysHash == Digested(got))
    }

    /** The rows of the first review: the capital, the restake and the delegation choice. */
    ghost predicate ShowsFirst(got: Config)
      reads this`stopBaking, this`capital, this`displayRestake, this`displayOpenForDelegation
    {
      ShowsCapital(got.capital) && ShowsRestake(got.restake) && ShowsOpen(got.open)
    }

    ghost predicate ShowsRestake(f: Field)
      reads this`displayRestake
    {
      f.Some? ==>
        && f.value in {[0], [1]}
        && (displayRestake == "No" <==> f.value == [0]) && (displayRestake == "Yes" <==> f.value == [1])
    }

    ghost predicate ShowsOpen(f: Field)
      reads this`displayOpenForDelegation
    {
      f.Some? ==>
        && f.value in {[0], [1], [2]}
        && (displayOpenForDelegation == "Open for all" <==> f.value == [0])
        && (displayOpenForDelegation == "Closed for new" <==> f.value == [1])
        && (displayOpenForDelegation == "Closed for all" <==> f.value == [2])
    }

    ghost predicate ShowsCapital(f: Field)
      reads this`stopBaking, this`capital
    {
      f.Some? ==> (stopBaking <==> FromBe(f.value) == 0) && (!stopBaking ==> capital == FromBe(f.value))
    }

    ghost predicate ShowsRates(got: Config)
      reads this`feeRate, this`rewardRate, this`finalizationRate
    {
      && (got.fee.Some? ==> feeRate == FromBe(got.fee.value))
      && (got.reward.Some? ==> rewardRate == FromBe(got.reward.value))
      && (got.finalization.Some? ==> finalizationRate == FromBe(got.finalization.value))
    }

    constructor ()
      ensures Valid() && model == Stale
    {
      has := Flags(false, false, false, false, false, false, false, false, false);
      stopBaking, capital, displayRestake, displayOpenForDelegation, urlLength := false, 0, "", "", 0;
      feeRate, rewardRate, finalizationRate, suspended, keysHash := 0, 0, 0, "", [];
      state, pendingState, hash, path, model := WipedState, WipedState, [], Path([], Invalid), Stale;
      urlDisplay := new byte[URL_DISPLAY_SIZE](_ => 0);
    }

    /** The dispatch guard, after a throw: the context is wiped. */
    method Clear()
      requires urlDisplay.Length == URL_DISPLAY_SIZE
      modifies this
      ensures Valid() && model == Stale
    {
      has := Flags(false, false, false, false, false, false, false, false, false);
      stopBaking, capital, displayRestake, displayOpenForDelegation, urlLength := false, 0, "", "", 0;
      feeRate, rewardRate, finalizationRate, suspended, keysHash := 0, 0, 0, "", [];
      state, pendingState, model := WipedState, WipedState, Stale;
    }

    /** awaitConfigureBakerConfirm; `next` is the wire form of the stage that `parked` resumes at. */
    method AwaitConfirm(next: Wire, ghost parked: State)
      requires urlDisplay.Length == URL_DISPLAY_SIZE && Inv(parked) && parked.Live? && parked.parked
      requires hash == Transcript(parked) && path == parked.path && has == parked.has && next == WireOf(parked.stage)
      requires parked.stage == UrlBytes ==> urlLength == parked.urlLeft
      requires has.keys ==> keysHash == Digested(parked.got)
      modifies this`state, this`pendingState, this`model
      ensures Valid() && model == parked
    {
      hide Transcript, Digested, ValidConfig, Collected;
      pendingState := next;
      state := AwaitingConfirm;
      model := parked;
    }

    /** confirmConfigureBakerStage: the user accepted a review that was not the last. */
    method ConfirmStage()
      requires Valid() && model.Live? && model.parked && !model.stage.End?
      modifies this`state, this`model
      ensures Valid() && model == Confirm(old(model))
    {
      hide Transcript, Digested, Collected;
      state := pendingState;
      ConfirmedTranscript(model);
      ConfirmKeepsInv(model);
      model := Confirm(model);
    }

    lemma ConfirmedTranscript(s: State)
      requires s.Live?
      ensures Transcript(Confirm(s)) == Transcript(s)
    {
    }

    // ---- What the last button of each review says ----

    /** startConfigureBakerDisplay */
    method FirstDisplay() returns (reply: Reply)
      ensures reply == if AfterKeys(has).End? then Sign else Continue
    {
      reply := if has.url || has.AnyRate() || has.suspended then Continue else Sign;
    }

    /** startConfigureBakerUrlDisplay */
    method UrlDisplay(lastUrlPage: bool) returns (reply: Reply)
      ensures reply == if lastUrlPage && AfterUrl(has).End? then Sign else Continue
    {
      reply := if !lastUrlPage || has.AnyRate() || has.suspended then Continue else Sign;
    }

    /** startConfigureBakerCommissionDisplay */
    method CommissionDisplay() returns (reply: Reply)
      ensures reply == if AfterRates(has).End? then Sign else Continue
    {
      reply := if has.suspended then Continue else Sign;
    }

    // ---- The stages ----

    /** The initial packet. A bitmap that declares nothing leaves the flow where it was. */
    method HandleInitial(cdata: seq<byte>) returns (reply: Reply)
      requires Valid() && model == Initial
      modifies this
      ensures urlDisplay.Length == URL_DISPLAY_SIZE && reply == Begin(cdata).reply
      ensures reply.Open() ==> Valid() && model == Begin(cdata).next
    {
      hide FromBe, ToBe, StartTransaction, FlagsOfBitmap, DisplayableText;
      match StartTransaction(cdata, KIND_CONFIGURE_BAKER)
      case StartThrown(sw) => return Throw(sw);
      case Started(signer, transcript, rest) =>
        path, hash := signer, transcript;
        if |rest| < 2 {
          return Throw(SWO_INCORRECT_DATA);
        }
        hash := hash + rest[..2];
        var bitmap := FromBe(rest[..2]);
        if bitmap > 511 {
          return Throw(ERROR_INVALID_TRANSACTION);
        }
        has := FlagsOfBitmap(bitmap);
        if has.keys {
          keysHash := [];
        }
        if has.AnyFirst() {
          state := FirstState;
        } else if has.url {
          state := UrlLengthState;
        } else if has.AnyRate() {
          state := CommissionRatesState;
        } else if has.suspended {
          state := SuspendedState;
        }
        StartedTranscript(signer, transcript, rest[..2]);
        BeginKeepsInv(cdata);
        model := Begin(cdata).next;
        return Ack;
    }

    lemma BeginKeepsInv(cdata: seq<byte>)
      ensures Inv(Begin(cdata).next)
    {
      StepKeepsInv(Initial, Packet(0, cdata));
    }

    lemma StartedTranscript(signer: Path, transcript: seq<byte>, bytes: seq<byte>)
      requires |bytes| == 2 && FromBe(bytes) < 512
      ensures var has := FlagsOfBitmap(FromBe(bytes));
        forall stage :: Transcript(Live(signer, transcript, has, stage, false, NOTHING, 0)) == transcript + bytes
    {
      hide FromBe, ToBe, FlagsOfBitmap;
      var has := FlagsOfBitmap(FromBe(bytes));
      BitmapRoundTrip(FromBe(bytes));
      ToBeFromBe(bytes);
      assert Body(NOTHING, 0) == [];
      forall stage ensures Transcript(Live(signer, transcript, has, stage, false, NOTHING, 0)) == transcript + bytes {
        assert transcript + bytes + [] == transcript + bytes;
      }
    }

    /** The capital: zero stands for leaving. */
    method TakeCapital(data: seq<byte>) returns (sw: int, rest: seq<byte>)
      modifies this`hash, this`stopBaking, this`capital
      ensures match Cut(has.capital, 8, data)
              case None => sw == SWO_INCORRECT_DATA
              case Some(cut) => sw == SWO_SUCCESS && rest == cut.1 && hash == old(hash) + Raw(cut.0) && ShowsCapital(cut.0)
    {
      hide FromBe;
      if !has.capital {
        assert hash + [] == hash;
        return SWO_SUCCESS, data;
      }
      if |data| < 8 {
        return SWO_INCORRECT_DATA, data;
      }
      Pow256Values();
      var amount: uint64 := FromBe(data[..8]);
      if amount == 0 {
        stopBaking := true;
      } else {
        stopBaking, capital := false, amount;
      }
      hash := hash + data[..8];
      return SWO_SUCCESS, data[8..];
    }

    /** A one-byte choice below `limit`. */
    method TakeChoice(declared: bool, limit: nat, data: seq<byte>) returns (sw: int, value: byte, rest: seq<byte>)
      modifies this`hash
      ensures match Cut(declared, 1, data)
              case None => sw == SWO_INCORRECT_DATA
              case Some(cut) =>
                if Choice(cut.0, limit) then
                  sw == SWO_SUCCESS && rest == cut.1 && hash == old(hash) + Raw(cut.0) && (declared ==> cut.0.value == [value])
                else sw == ERROR_INVALID_TRANSACTION
    {
      if !declared {
        assert hash + [] == hash;
        return SWO_SUCCESS, 0, data;
      }
      if |data| < 1 {
        return SWO_INCORRECT_DATA, 0, data;
      }
      value, rest := data[0], data[1..];
      hash := hash + data[..1];
      sw := if value < limit then SWO_SUCCESS else ERROR_INVALID_TRANSACTION;
    }

    /** The capital, the restake choice and the delegation choice. */
    method ReadFirst(cdata: seq<byte>) returns (sw: int, rest: seq<byte>)
      modifies this`hash, this`stopBaking, this`capital, this`displayRestake, this`displayOpenForDelegation
      ensures match CutFirst(has, cdata)
              case CutFailed(e) => sw == e != SWO_SUCCESS
              case Cuts(a, b, c, r) =>
                && sw == SWO_SUCCESS && rest == r && hash == old(hash) + (Raw(a) + Raw(b) + Raw(c))
                && ShowsFirst(NOTHING.(capital := a, restake := b, open := c))
    {
      hide FromBe, Cut, ShowsRestake, ShowsOpen, ShowsCapital;
      var afterCapital;
      sw, afterCapital := TakeCapital(cdata);
      if sw != SWO_SUCCESS {
        return sw, [];
      }
      var afterRestake;
      sw, afterRestake := TakeRestake(afterCapital);
      if sw != SWO_SUCCESS {
        return sw, [];
      }
      sw, rest := TakeOpen(afterRestake);
    }

    /** The restake choice and its row. */
    method TakeRestake(data: seq<byte>) returns (sw: int, rest: seq<byte>)
      modifies this`hash, this`displayRestake
      ensures match Cut(has.restake, 1, data)
              case None => sw == SWO_INCORRECT_DATA
              case Some(cut) =>
                if Choice(cut.0, 2) then sw == SWO_SUCCESS && rest == cut.1 && hash == old(hash) + Raw(cut.0) && ShowsRestake(cut.0)
                else sw == ERROR_INVALID_TRANSACTION
    {
      var restake;
      sw, restake, rest := TakeChoice(has.restake, 2, data);
      displayRestake := if restake == 0 then "No" else "Yes";
    }

    /** The delegation choice and its row. */
    method TakeOpen(data: seq<byte>) returns (sw: int, rest: seq<byte>)
      modifies this`hash, this`displayOpenForDelegation
      ensures match Cut(has.open, 1, data)
              case None => sw == SWO_INCORRECT_DATA
              case Some(cut) =>
                if Choice(cut.0, 3) then sw == SWO_SUCCESS && rest == cut.1 && hash == old(hash) + Raw(cut.0) && ShowsOpen(cut.0)
                else sw == ERROR_INVALID_TRANSACTION
    {
      var open;
      sw, open, rest := TakeChoice(has.open, 3, data);
      displayOpenForDelegation :=
        if open == 0 then "Open for all" else if open == 1 then "Closed for new" else "Closed for all";
    }

    method AwaitAggregation(ghost next: State)
      requires urlDisplay.Length == URL_DISPLAY_SIZE && Inv(next) && next.Live? && next.stage == Aggregation
      requires hash == Transcript(next) && path == next.path && has == next.has
      requires keysHash == Digested(next.got) && ShowsFirst(next.got)
      modifies this`state, this`model
      ensures Valid() && model == next
    {
      hide Transcript, Digested, ValidConfig, Collected, ShowsFirst;
      state := AggregationState;
      model := next;
    }

    /** The first batch: capital, restake, delegation choice, and the first two keys with their proofs. */
    method HandleFirst(cdata: seq<byte>) returns (reply: Reply)
      requires Valid() && model.Live? && model.stage.FirstBatch?
      modifies this
      ensures urlDisplay.Length == URL_DISPLAY_SIZE && reply == TakeFirst(old(model), cdata).reply
      ensures reply.Open() ==> Valid() && model == TakeFirst(old(model), cdata).next && ShowsCapital(model.got.capital)
      ensures reply.Open() && model.got.restake.Some? ==>
                && (displayRestake == "No" <==> model.got.restake.value == [0])
                && (displayRestake == "Yes" <==> model.got.restake.value == [1])
      ensures reply.Open() && model.got.open.Some? ==>
                && (displayOpenForDelegation == "Open for all" <==> model.got.open.value == [0])
                && (displayOpenForDelegation == "Closed for new" <==> model.got.open.value == [1])
                && (displayOpenForDelegation == "Closed for all" <==> model.got.open.value == [2])
    {
      hide FromBe, ToBe, Transcript, DisplayableText, Digested, CutFirst, Inv;
      ghost var was := model;
      var sw, rest := ReadFirst(cdata);
      if sw != SWO_SUCCESS {
        return Throw(sw);
      }
      TakeFirstKeepsInv(was, cdata);
      if has.keys {
        if |rest| != 192 {
          return Throw(SWO_INCORRECT_DATA);
        }
        HashKeys(rest);
        FirstTranscript(was, TakeFirst(was, cdata).next);
        AwaitAggregation(TakeFirst(was, cdata).next);
        return Ack;
      }
      if rest != [] {
        return Throw(SWO_INCORRECT_DATA);
      }
      FirstTranscript(was, TakeFirst(was, cdata).next);
      AwaitConfirm(if has.url then UrlLengthState else if has.AnyRate() then CommissionRatesState
                   else if has.suspended then SuspendedState else EndState, TakeFirst(was, cdata).next);
      reply := FirstDisplay();
    }

    /** Key, proof, key, proof: all hashed, only the keys digested. */
    method HashKeys(rest: seq<byte>)
      requires |rest| == 192
      modifies this`hash, this`keysHash
      ensures hash == old(hash) + rest && keysHash == old(keysHash) + rest[..32] + rest[96..128]
    {
      hash := hash + rest[..32];
      keysHash := keysHash + rest[..32];
      hash := hash + rest[32..96];
      hash := hash + rest[96..128];
      keysHash := keysHash + rest[96..128];
      hash := hash + rest[128..192];
      assert rest == rest[..32] + rest[32..96] + rest[96..128] + rest[128..192];
    }

    lemma FirstTranscript(was: State, next: State)
      requires Inv(was) && was.Live? && was.stage.FirstBatch?
      requires next.Live? && next.head == was.head && next.has == was.has && next.urlLeft == was.urlLeft
      requires next.got == was.got.(capital := next.got.capital, restake := next.got.restake, open := next.got.open,
                                    keys := next.got.keys)
      ensures was.got.keys.None?
      ensures var first := Raw(next.got.capital) + Raw(next.got.restake) + Raw(next.got.open);
        if next.got.keys.Some? then Transcript(next) == Transcript(was) + first + next.got.keys.value
        else Transcript(next) == Transcript(was) + first
      ensures var k := next.got.keys;
        k.Some? && |k.value| == KEYS_LENGTH ==> Digested(next.got) == Digested(was.got) + k.value[..32] + k.value[96..128]
    {
    }

    /** The aggregation key and its proof; the digest of the three keys is complete. */
    method HandleAggregation(cdata: seq<byte>) returns (reply: Reply)
      requires Valid() && model.Live? && model.stage.Aggregation?
      modifies this
      ensures urlDisplay.Length == URL_DISPLAY_SIZE && reply == TakeAggregation(old(model), cdata).reply
      ensures reply.Open() ==> Valid() && model == TakeAggregation(old(model), cdata).next && ShowsCapital(model.got.capital)
      ensures reply.Open() && model.got.restake.Some? ==>
                && (displayRestake == "No" <==> model.got.restake.value == [0])
                && (displayRestake == "Yes" <==> model.got.restake.value == [1])
      ensures reply.Open() && model.got.open.Some? ==>
                && (displayOpenForDelegation == "Open for all" <==> model.got.open.value == [0])
                && (displayOpenForDelegation == "Closed for new" <==> model.got.open.value == [1])
                && (displayOpenForDelegation == "Closed for all" <==> model.got.open.value == [2])
    {
      hide FromBe, ToBe, Transcript, DisplayableText, Digested, Rate, Inv, ValidConfig, Collected, TakeAggregation;
      ghost var was := model;
      AggregationNeedsKeys(was);
      AggregationIs(was, cdata);
      if !has.keys || |cdata| != 160 {
        return Throw(SWO_INCORRECT_DATA);
      }
      HashAggregation(cdata);
      AggregationTranscript(was, cdata);
      AwaitConfirm(if has.url then UrlLengthState else if has.AnyRate() then CommissionRatesState
                   else if has.suspended then SuspendedState else EndState, TakeAggregation(was, cdata).next);
      reply := FirstDisplay();
    }

    /** Key and proof: both hashed, only the key digested. */
    method HashAggregation(cdata: seq<byte>)
      requires |cdata| == 160
      modifies this`hash, this`keysHash
      ensures hash == old(hash) + cdata && keysHash == old(keysHash) + cdata[..96]
    {
      hash := hash + cdata[..96];
      keysHash := keysHash + cdata[..96];
      hash := hash + cdata[96..160];
      assert cdata == cdata[..96] + cdata[96..160];
    }

    lemma AggregationNeedsKeys(was: State)
      requires Inv(was) && was.Live? && was.stage.Aggregation?
      ensures was.has.keys
    {
    }

    lemma AggregationIs(was: State, cdata: seq<byte>)
      requires was.Live? && was.stage.Aggregation?
      ensures if |cdata| != 160 then TakeAggregation(was, cdata).reply == Throw(SWO_INCORRECT_DATA)
              else
                && TakeAggregation(was, cdata).next == was.(got := was.got.(aggregation := Some(cdata)), parked := true,
                                                            stage := AfterKeys(was.has))
                && TakeAggregation(was, cdata).reply == if AfterKeys(was.has).End? then Sign else Continue
    {
    }

    lemma AggregationTranscript(was: State, cdata: seq<byte>)
      requires Inv(was) && was.Live? && was.stage.Aggregation? && |cdata| == AGGREGATION_LENGTH
      ensures var next := TakeAggregation(was, cdata).next;
        && Inv(next) && Transcript(next) == Transcript(was) + cdata
        && Digested(next.got) == Digested(was.got) + cdata[..96]
    {
      StepKeepsInv(was, Packet(2, cdata));
    }

    /** The length of the URL; an empty URL is reviewed at once. */
    method HandleUrlLength(cdata: seq<byte>) returns (reply: Reply)
      requires Valid() && model.Live? && model.stage.UrlLength? && !model.parked
      modifies this
      ensures urlDisplay.Length == URL_DISPLAY_SIZE && reply == TakeUrlLength(old(model), cdata).reply
      ensures reply.Open() ==> Valid() && model == TakeUrlLength(old(model), cdata).next
    {
      hide FromBe, ToBe, Transcript, DisplayableText, Digested, Rate, Inv;
      ghost var was := model;
      UrlIsDeclared(was);
      if !has.url {
        return Throw(ERROR_INVALID_TRANSACTION);
      }
      if |cdata| < 2 {
        return Throw(SWO_INCORRECT_DATA);
      }
      var length := FromBe(cdata[..2]);
      if length > 2048 {
        return Throw(ERROR_INVALID_TRANSACTION);
      }
      urlLength := length;
      hash := hash + cdata[..2];
      UrlLengthTranscript(was, cdata);
      if urlLength == 0 {
        AwaitConfirm(if has.AnyRate() then CommissionRatesState else if has.suspended then SuspendedState else EndState,
                     TakeUrlLength(was, cdata).next);
        reply := UrlDisplay(true);
      } else {
        model := TakeUrlLength(was, cdata).next;
        state := UrlState;
        reply := Ack;
      }
    }

    lemma SameDigest(c: Config, d: Config)
      requires c.keys == d.keys && c.aggregation == d.aggregation
      requires Length(c.keys, KEYS_LENGTH) && Length(c.aggregation, AGGREGATION_LENGTH)
      ensures Digested(c) == Digested(d)
    {
    }

    lemma UrlLengthTranscript(was: State, cdata: seq<byte>)
      requires Inv(was) && was.Live? && was.stage.UrlLength? && |cdata| >= 2 && FromBe(cdata[..2]) <= MAX_URL_LENGTH && !was.parked
      ensures var next := TakeUrlLength(was, cdata).next;
        && Inv(next) && Transcript(next) == Transcript(was) + cdata[..2] && Digested(next.got) == Digested(was.got)
    {
      hide FromBe, ToBe, DisplayableText, Digested, First;
      StepKeepsInv(was, Packet(3, cdata));
      ToBeFromBe(cdata[..2]);
      var next := TakeUrlLength(was, cdata).next;
      SameDigest(was.got, next.got);
      UrlAnnounced(was.got, was.urlLeft, FromBe(cdata[..2]));
      assert Transcript(next) == was.head + BitmapBytes(was.has) + (Body(was.got, was.urlLeft) + cdata[..2]);
    }

    lemma UrlIsDeclared(was: State)
      requires Inv(was) && was.Live? && was.stage.UrlLength?
      ensures was.has.url
    {
    }

    lemma UrlAnnounced(c: Config, m: nat, n: nat)
      requires c.url.None? && c.fee.None? && c.reward.None? && c.finalization.None? && c.suspended.None?
      ensures Body(c.(url := Some([])), n) == Body(c, m) + ToBe(n, 2)
    {
      hide ToBe;
      assert ToBe(n, 2) + [] == ToBe(n, 2);
    }

    /** A chunk of the URL: shown as it is, then the next one, or the next stage. */
    method HandleUrl(cdata: seq<byte>) returns (reply: Reply)
      requires Valid() && model.Live? && model.stage.UrlBytes? && !model.parked && |cdata| <= UINT8_MAX
      modifies this, urlDisplay
      ensures urlDisplay.Length == URL_DISPLAY_SIZE && reply == TakeUrl(old(model), cdata).reply
      ensures reply.Open() ==> Valid() && model == TakeUrl(old(model), cdata).next && CString(urlDisplay[..]) == cdata
    {
      hide FromBe, ToBe, Transcript, Digested, Rate, CString;
      ghost var was := model;
      if urlLength < |cdata| {
        return Throw(SWO_INCORRECT_DATA);
      }
      var displayable := IsDisplayableText(cdata);
      if !displayable {
        return Refuse(ERROR_INVALID_TRANSACTION);
      }
      hash := hash + cdata;
      ShowUrl(cdata);
      UrlTranscript(was, cdata);
      if urlLength > |cdata| {
        urlLength := urlLength - |cdata|;
        AwaitConfirm(UrlState, TakeUrl(was, cdata).next);
        reply := UrlDisplay(false);
      } else {
        AwaitConfirm(if has.AnyRate() then CommissionRatesState else if has.suspended then SuspendedState else EndState,
                     TakeUrl(was, cdata).next);
        reply := UrlDisplay(true);
      }
    }

    method ShowUrl(cdata: seq<byte>)
      requires urlDisplay.Length == URL_DISPLAY_SIZE && |cdata| <= UINT8_MAX && DisplayableText(cdata)
      modifies urlDisplay
      ensures CString(urlDisplay[..]) == cdata
    {
      hide CString;
      forall i | 0 <= i < urlDisplay.Length {
        urlDisplay[i] := if i < |cdata| then cdata[i] else 0;
      }
      assert urlDisplay[..] == cdata + [0] + urlDisplay[|cdata| + 1..];
      CStringOf(cdata, urlDisplay[|cdata| + 1..]);
    }

    lemma UrlTranscript(was: State, cdata: seq<byte>)
      requires Inv(was) && was.Live? && was.stage.UrlBytes? && |cdata| <= was.urlLeft && DisplayableText(cdata) && !was.parked
      ensures var next := TakeUrl(was, cdata).next;
        && Inv(next) && Transcript(next) == Transcript(was) + cdata && Digested(next.got) == Digested(was.got)
    {
      hide FromBe, ToBe, DisplayableText;
      TakeUrlKeepsInv(was, cdata);
    }

    /** One commission rate; more than a whole is refused by fraction_to_percentage_display. */
    method TakeRate(declared: bool, data: seq<byte>) returns (sw: int, rate: uint32, rest: seq<byte>)
      modifies this`hash
      ensures match Cut(declared, 4, data)
              case None => sw == SWO_INCORRECT_DATA
              case Some(cut) =>
                if Rate(cut.0) then
                  && sw == SWO_SUCCESS && rest == cut.1 && hash == old(hash) + Raw(cut.0)
                  && (declared ==> rate == FromBe(cut.0.value))
                else sw == ERROR_INVALID_TRANSACTION
    {
      hide FromBe;
      if !declared {
        assert hash + [] == hash;
        return SWO_SUCCESS, 0, data;
      }
      if |data| < 4 {
        return SWO_INCORRECT_DATA, 0, data;
      }
      Pow256Values();
      rate, rest := FromBe(data[..4]), data[4..];
      if rate > MAX_RATE {
        return ERROR_INVALID_TRANSACTION, rate, rest;
      }
      hash := hash + data[..4];
      sw := SWO_SUCCESS;
    }

    method ReadRates(cdata: seq<byte>) returns (sw: int, rest: seq<byte>)
      modifies this`hash, this`feeRate, this`rewardRate, this`finalizationRate
      ensures match CutRates(has, cdata)
              case CutFailed(e) => sw == e != SWO_SUCCESS
              case Cuts(a, b, c, r) =>
                && sw == SWO_SUCCESS && rest == r && hash == old(hash) + (Raw(a) + Raw(b) + Raw(c))
                && ShowsRates(NOTHING.(fee := a, reward := b, finalization := c))
    {
      hide FromBe, Cut, Rate;
      var rate, afterFee;
      sw, rate, afterFee := TakeRate(has.fee, cdata);
      if sw != SWO_SUCCESS {
        return sw, [];
      }
      feeRate := rate;
      var afterReward;
      sw, rate, afterReward := TakeRate(has.reward, afterFee);
      if sw != SWO_SUCCESS {
        return sw, [];
      }
      rewardRate := rate;
      sw, rate, rest := TakeRate(has.finalization, afterReward);
      finalizationRate := rate;
    }

    /** handleCommissionRates */
    method HandleCommissionRates(cdata: seq<byte>) returns (reply: Reply)
      requires Valid() && model.Live? && model.stage.CommissionRates? && !model.parked
      modifies this
      ensures urlDisplay.Length == URL_DISPLAY_SIZE && reply == TakeRates(old(model), cdata).reply
      ensures reply.Open() ==> Valid() && model == TakeRates(old(model), cdata).next && ShowsRates(model.got)
    {
      hide FromBe, ToBe, Transcript, Digested, Rate, DisplayableText, CutRates, Inv;
      ghost var was := model;
      var sw, rest := ReadRates(cdata);
      if sw != SWO_SUCCESS {
        return Throw(sw);
      }
      if !has.suspended && rest != [] {
        return Throw(SWO_INCORRECT_DATA);
      }
      TakeRatesKeepsInv(was, cdata);
      RatesTranscript(was, TakeRates(was, cdata).next);
      AwaitConfirm(if has.suspended then SuspendedState else EndState, TakeRates(was, cdata).next);
      reply := CommissionDisplay();
    }

    lemma RatesTranscript(was: State, next: State)
      requires Inv(was) && was.Live? && was.stage.CommissionRates?
      requires next.Live? && next.head == was.head && next.has == was.has && next.urlLeft == was.urlLeft
      requires next.got == was.got.(fee := next.got.fee, reward := next.got.reward, finalization := next.got.finalization)
      ensures Transcript(next) == Transcript(was) + (Raw(next.got.fee) + Raw(next.got.reward) + Raw(next.got.finalization))
      ensures Digested(next.got) == Digested(was.got)
    {
      hide FromBe, ToBe;
    }

    /** The suspension byte: the last stage. */
    method HandleSuspended(cdata: seq<byte>) returns (reply: Reply)
      requires Valid() && model.Live? && model.stage.Suspended? && !model.parked && 1 <= |cdata|
      modifies this
      ensures urlDisplay.Length == URL_DISPLAY_SIZE && reply == TakeSuspended(old(model), cdata).reply
      ensures reply.Open() ==> Valid() && model == TakeSuspended(old(model), cdata).next
      ensures reply.Open() ==> suspended == (if cdata[0] == 0 then "Resume validator" else "Suspend validator")
    {
      hide FromBe, ToBe, Transcript, Digested, Rate, DisplayableText;
      ghost var was := model;
      hash := hash + cdata[..1];
      if |cdata| != 1 {
        return Throw(SWO_INCORRECT_DATA);
      }
      if cdata[0] == 0 {
        suspended := "Resume validator";
      } else if cdata[0] == 1 {
        suspended := "Suspend validator";
      } else {
        return Throw(ERROR_INVALID_TRANSACTION);
      }
      assert cdata[..1] == cdata;
      SuspendedTranscript(was, cdata);
      AwaitConfirm(EndState, TakeSuspended(was, cdata).next);
      return Sign;
    }

    lemma SuspendedTranscript(was: State, cdata: seq<byte>)
      requires Inv(was) && was.Live? && was.stage.Suspended? && |cdata| == 1 && cdata[0] <= 1 && !was.parked
      ensures var next := TakeSuspended(was, cdata).next;
        && Inv(next) && Transcript(next) == Transcript(was) + cdata && Digested(next.got) == Digested(was.got)
    {
      hide FromBe, ToBe;
      StepKeepsInv(was, Packet(6, cdata));
    }

    /** handle_sign_configure_baker */
    method Handle(p1: uint8, cdata: seq<byte>, isInitialCall: bool) returns (reply: Reply)
      requires Valid() && 1 <= |cdata| <= UINT8_MAX && (isInitialCall ==> model == Stale)
      modifies this, urlDisplay
      ensures var s := if isInitialCall then Initial else old(model);
        && Inv(s) && reply == Step(s, Packet(p1, cdata)).reply
        && (reply.Open() ==> Valid() && model == Step(s, Packet(p1, cdata)).next)
      ensures reply.Throw? ==> Valid() && model == Stale
    {
      hide Begin, TakeFirst, TakeAggregation, TakeUrlLength, TakeUrl, TakeRates, TakeSuspended, Transcript, Digested,
           DisplayableText, ValidConfig, Collected;
      if isInitialCall {
        state, model := InitialState, Initial;
      }
      if p1 == 0 && state == InitialState {
        reply := HandleInitial(cdata);
      } else if p1 == 1 && state == FirstState {
        reply := HandleFirst(cdata);
      } else if p1 == 2 && state == AggregationState {
        reply := HandleAggregation(cdata);
      } else if p1 == 3 && state == UrlLengthState {
        reply := HandleUrlLength(cdata);
      } else if p1 == 4 && state == UrlState {
        reply := HandleUrl(cdata);
      } else if p1 == 5 && state == CommissionRatesState {
        reply := HandleCommissionRates(cdata);
      } else if p1 == 6 && state == SuspendedState {
        reply := HandleSuspended(cdata);
      } else {
        reply := Throw(ERROR_INVALID_STATE);
      }
      if reply.Throw? {
        Clear();
      }
    }
  }
}
