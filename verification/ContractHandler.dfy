/** The context that the two contract handlers update in place, refining the steps of Contract. */
module ContractHandler {
  import opened Bytes
  import opened Contract
  import opened DerivationPath
  import opened Status
  import opened TxHash

  /** initContractState_t and updateContractState_t; a wiped context holds none of their values. */
  datatype Phase = Wiped | FirstName | NextName | FirstParams | NextParams

  /** initContract_t or updateContract_t: the two differ only in the fields of the initial packet. */
  class ContractContext {
    const which: Which
    var phase: Phase
    var amount: uint64
    var moduleRef: seq<byte>
    var index: uint64
    var subIndex: uint64
    var nameLength: uint32
    var remainingNameLength: uint32
    var paramsLength: uint32
    var remainingParamsLength: uint32
    const nameDisplay: array<byte>
    var nameDisplayUsed: uint32
    var paramsHash: seq<byte>
    // Outside the instruction context.
    var hash: seq<byte>
    var path: Path
    // The state of Contract these fields stand for.
    ghost var model: State

    ghost predicate Valid()
      reads this, nameDisplay
    {
      && nameDisplay.Length == CONTRACT_NAME_SIZE
      && (!model.Fresh? && !model.Stale? ==>
            && hash == Transcript(model) && paramsHash == Digested(model) && path == model.path
            && ShowsFixedFields(model.head))
      && (model.ParamsNext? || model.Review? ==>
            phase == NextParams && remainingNameLength == 0 && CString(nameDisplay[..]) == NameRow(model.name))
      && match model
         case NameFirst(_, _) =>
           && phase == FirstName && remainingNameLength == 0 && remainingParamsLength == 0
           && nameDisplayUsed == 0 && nameDisplay[0] == 0
         case NameNext(_, _, length, name) =>
           && phase == NextName && nameLength == length && remainingParamsLength == 0 && DisplayableText(name)
           && |name| < length <= UINT16_MAX && remainingNameLength == length - |name| && Retains(name, length)
         case ParamsFirst(_, _, name) =>
           && phase == FirstParams && remainingNameLength == 0 && remainingParamsLength == 0
           && CString(nameDisplay[..]) == NameRow(name)
         case ParamsNext(_, _, _, length, params) =>
           |params| < length <= UINT16_MAX && remainingParamsLength == length - |params|
         case Review(_, _, _, _) => remainingParamsLength == 0
         case _ => Zeroed()
    }

    ghost predicate Zeroed()
      reads this
    {
      phase == Wiped && remainingNameLength == 0 && remainingParamsLength == 0 && nameDisplayUsed == 0
    }

    /** The rows of the fixed fields show what the head of the transaction holds. */
    ghost predicate ShowsFixedFields(head: seq<byte>)
      reads this`amount, this`moduleRef, this`index, this`subIndex
    {
      && |head| == 61 + which.FixedFields() && amount == FromBe(head[61..69])
      && (which.InitContract? ==> moduleRef == head[69..101])
      && (which.UpdateContract? ==> index == FromBe(head[69..77]) && subIndex == FromBe(head[77..85]))
    }

    /** A name that will fit the buffer is kept there, terminated; `nameDisplayUsed` counts it. */
    ghost predicate Retains(name: seq<byte>, length: nat)
      requires nameDisplay.Length == CONTRACT_NAME_SIZE && |name| <= length
      reads this`nameDisplayUsed, nameDisplay
    {
      if length < CONTRACT_NAME_SIZE then
        nameDisplayUsed == |name| && nameDisplay[..nameDisplayUsed] == name && nameDisplay[nameDisplayUsed] == 0
      else
        true
    }

    constructor (which: Which)
      ensures Valid() && Zeroed() && model == Stale && this.which == which
    {
      this.which := which;
      phase, amount, moduleRef, index, subIndex := Wiped, 0, [], 0, 0;
      nameLength, remainingNameLength, paramsLength, remainingParamsLength, nameDisplayUsed := 0, 0, 0, 0, 0;
      paramsHash, hash, path := [], [], Path([], Invalid);
      nameDisplay := new byte[CONTRACT_NAME_SIZE](_ => 0);
      model := Stale;
    }

    /** The dispatch guard, after a throw: the context is wiped. */
    method Clear()
      requires nameDisplay.Length == CONTRACT_NAME_SIZE
      modifies this, nameDisplay
      ensures Valid() && Zeroed() && model == Stale
    {
      phase, amount, moduleRef, index, subIndex := Wiped, 0, [], 0, 0;
      nameLength, remainingNameLength, paramsLength, remainingParamsLength, nameDisplayUsed := 0, 0, 0, 0, 0;
      paramsHash := [];
      forall i | 0 <= i < nameDisplay.Length {
        nameDisplay[i] := 0;
      }
      model := Stale;
    }

    /** The initial packet. */
    method HandleInitial(cdata: seq<byte>) returns (reply: Reply)
      requires Valid() && Zeroed()
      modifies this, nameDisplay
      ensures nameDisplay.Length == CONTRACT_NAME_SIZE && reply == Begin(which, cdata).reply
      ensures reply.Open() ==> Valid() && model == Begin(which, cdata).next
    {
      hide FromBe, ToBe, CString, StartTransaction, ShowsFixedFields;
      match StartTransaction(cdata, which.Kind())
      case StartThrown(sw) => return Throw(sw);
      case Started(signer, transcript, rest) =>
        path, hash := signer, transcript;
        var ok := HashFixedFields(rest);
        if !ok {
          return Throw(SWO_INCORRECT_DATA);
        }
        forall i | 0 <= i < nameDisplay.Length {
          nameDisplay[i] := 0;
        }
        phase, paramsHash := FirstName, [];
        model := Begin(which, cdata).next;
        return Ack;
    }

    /** Hash the amount and the instance fields and keep what the review shows of them. */
    method HashFixedFields(rest: seq<byte>) returns (ok: bool)
      modifies this`hash, this`amount, this`moduleRef, this`index, this`subIndex
      ensures ok <==> |rest| >= which.FixedFields()
      ensures ok ==> hash == old(hash) + rest[..which.FixedFields()]
      ensures ok && |old(hash)| == 61 ==> ShowsFixedFields(hash)
    {
      hide FromBe;
      ghost var transcript := hash;
      if |rest| < 8 {
        return false;
      }
      hash := hash + rest[..8];
      amount := U64(rest[..8]);
      if which.InitContract? {
        if |rest| < 40 {
          return false;
        }
        hash := hash + rest[8..40];
        moduleRef := rest[8..40];
      } else {
        if |rest| < 16 {
          return false;
        }
        hash := hash + rest[8..16];
        index := U64(rest[8..16]);
        if |rest| < 24 {
          return false;
        }
        hash := hash + rest[16..24];
        subIndex := U64(rest[16..24]);
      }
      if |transcript| == 61 {
        FixedFieldsAre(transcript, rest);
      }
      return true;
    }

    lemma FixedFieldsAre(transcript: seq<byte>, rest: seq<byte>)
      requires |transcript| == 61 && |rest| >= which.FixedFields()
      ensures var head := transcript + rest[..which.FixedFields()];
        && head[61..69] == rest[..8]
        && (which.InitContract? ==> head[69..101] == rest[8..40] && head == transcript + rest[..8] + rest[8..40])
        && (which.UpdateContract? ==>
              && head[69..77] == rest[8..16] && head[77..85] == rest[16..24]
              && head == transcript + rest[..8] + rest[8..16] + rest[16..24])
    {
    }

    /** The first name packet announces the length; no packet may carry more than is left. */
    method AnnounceName(cdata: Data) returns (sw: int, nameOffset: nat)
      modifies this`phase, this`nameLength, this`remainingNameLength
      ensures nameOffset == if old(phase) == FirstName then 2 else 0
      ensures old(phase) == FirstName ==>
                && sw == (if |cdata| < 2 then SWO_INCORRECT_DATA
                          else if FromBe(cdata[..2]) + 2 < |cdata| then ERROR_INVALID_NAME_LENGTH else SWO_SUCCESS)
                && (sw == SWO_SUCCESS ==>
                      && phase == NextName && nameLength == FromBe(cdata[..2]) <= UINT16_MAX
                      && ToBe(nameLength, 2) == cdata[..2] && remainingNameLength == nameLength + 2)
      ensures old(phase) != FirstName ==>
                && sw == (if remainingNameLength < |cdata| then ERROR_INVALID_NAME_LENGTH else SWO_SUCCESS)
                && unchanged(this)
    {
      hide FromBe, ToBe;
      sw, nameOffset := SWO_SUCCESS, 0;
      if phase == FirstName {
        nameOffset := 2;
        if |cdata| < 2 {
          return SWO_INCORRECT_DATA, nameOffset;
        }
        nameLength := U16(cdata[..2]);
        remainingNameLength := nameLength + 2;
        if remainingNameLength < |cdata| {
          return ERROR_INVALID_NAME_LENGTH, nameOffset;
        }
        phase := NextName;
        ToBeFromBe(cdata[..2]);
      } else if remainingNameLength < |cdata| {
        sw := ERROR_INVALID_NAME_LENGTH;
      }
    }

    /** The name packets. */
    method HandleName(cdata: Data) returns (reply: Reply)
      requires Valid()
      modifies this, nameDisplay
      ensures nameDisplay.Length == CONTRACT_NAME_SIZE && reply == Step(which, old(model), Packet(1, cdata)).reply
      ensures reply.Open() ==> Valid() && model == Step(which, old(model), Packet(1, cdata)).next
    {
      hide FromBe, ToBe, CString, ShowsFixedFields, Transcript, Digested, NameRow;
      ghost var was := model;
      var sw, nameOffset := AnnounceName(cdata);
      if sw != SWO_SUCCESS {
        return Throw(sw);
      }
      var text := cdata[nameOffset..];
      var displayable := IsDisplayableText(text);
      if nameOffset < |cdata| && !displayable {
        return Refuse(ERROR_INVALID_TRANSACTION);
      }
      ghost var name := if was.NameNext? then was.name else [];
      DisplayableParts(name, text);
      NameStep(was, cdata, text, nameLength);
      AbsorbName(cdata, text, was, name);
      return Ack;
    }

    /** Hash a chunk, digest and keep its text, and move on once the name is complete. */
    method AbsorbName(cdata: Data, text: seq<byte>, ghost was: State, ghost name: seq<byte>)
      requires nameDisplay.Length == CONTRACT_NAME_SIZE && (was.NameFirst? || was.NameNext?)
      requires hash == Transcript(was) && paramsHash == Digested(was) && path == was.path && ShowsFixedFields(was.head)
      requires phase == NextName && nameLength <= UINT16_MAX && remainingParamsLength == 0 && nameLength >= |name|
      requires Retains(name, nameLength) && DisplayableText(name + text)
      requires was.NameFirst? ==> name == [] && |cdata| >= 2 && text == cdata[2..] && ToBe(nameLength, 2) == cdata[..2]
      requires was.NameNext? ==> name == was.name && text == cdata && nameLength == was.nameLength
      requires |cdata| <= remainingNameLength == nameLength - |name| + (|cdata| - |text|)
      modifies this, nameDisplay
      ensures Valid()
      ensures model == if |name + text| == old(nameLength) then ParamsFirst(was.path, was.head, name + text)
                       else NameNext(was.path, was.head, old(nameLength), name + text)
    {
      hide FromBe, ToBe, CString, ShowsFixedFields, Transcript, Digested, DisplayableText, NameRow, TOO_LONG;
      hash, paramsHash := hash + cdata, paramsHash + text;
      KeepName(text, name);
      remainingNameLength := remainingNameLength - |cdata|;
      HashedName(was, cdata, text, nameLength);
      if remainingNameLength == 0 {
        FinishName(was, name + text);
      } else {
        model := NameNext(was.path, was.head, nameLength, name + text);
      }
    }

    /** Keep the text of a chunk if the whole name will fit. */
    method KeepName(text: seq<byte>, ghost name: seq<byte>)
      requires nameDisplay.Length == CONTRACT_NAME_SIZE && |name + text| <= nameLength && Retains(name, nameLength)
      modifies this`nameDisplayUsed, nameDisplay
      ensures Retains(name + text, nameLength)
    {
      if text != [] && nameLength < CONTRACT_NAME_SIZE {
        RetainName(text);
      }
      assert text == [] ==> name + text == name;
    }

    /** All of the name has arrived: one that does not fit the buffer is replaced whole. */
    method FinishName(ghost was: State, ghost name: seq<byte>)
      requires nameDisplay.Length == CONTRACT_NAME_SIZE && |name| == nameLength && DisplayableText(name)
      requires Retains(name, nameLength) && (was.NameFirst? || was.NameNext?)
      requires var done := ParamsFirst(was.path, was.head, name);
        hash == Transcript(done) && paramsHash == Digested(done) && path == was.path && ShowsFixedFields(was.head)
      requires remainingNameLength == 0 && remainingParamsLength == 0
      modifies this`phase, this`model, nameDisplay
      ensures Valid() && model == ParamsFirst(was.path, was.head, name)
    {
      hide CString, ShowsFixedFields, Transcript, Digested;
      phase := FirstParams;
      model := ParamsFirst(was.path, was.head, name);
      if nameLength >= CONTRACT_NAME_SIZE {
        ShowMarker();
      } else {
        RowShowsName(name);
      }
    }

    lemma NameStep(was: State, cdata: Data, text: seq<byte>, length: nat)
      requires was.NameFirst? || was.NameNext?
      requires was.NameFirst? ==> |cdata| >= 2 && text == cdata[2..] && length == FromBe(cdata[..2])
      requires was.NameNext? ==> text == cdata && length == was.nameLength
      requires DisplayableText(text)
      ensures var name := (if was.NameNext? then was.name else []) + text;
        |name| <= length ==>
          Step(which, was, Packet(1, cdata))
          == Result(if |name| == length then ParamsFirst(was.path, was.head, name)
                    else NameNext(was.path, was.head, length, name), Ack)
    {
      hide FromBe, DisplayableText;
    }

    /** How the transcript grows by a name chunk, complete or not. */
    lemma HashedName(was: State, cdata: Data, text: seq<byte>, length: nat)
      requires was.NameFirst? || was.NameNext?
      requires was.NameFirst? ==> |cdata| >= 2 && text == cdata[2..] && ToBe(length, 2) == cdata[..2]
      requires was.NameNext? ==> text == cdata && length == was.nameLength
      ensures var name := (if was.NameNext? then was.name else []) + text;
        && Transcript(was) + cdata == Transcript(NameNext(was.path, was.head, length, name))
        && Digested(was) + text == Digested(NameNext(was.path, was.head, length, name))
        && (|name| == length ==>
              && Transcript(was) + cdata == Transcript(ParamsFirst(was.path, was.head, name))
              && Digested(was) + text == Digested(ParamsFirst(was.path, was.head, name)))
    {
      hide ToBe;
      if was.NameFirst? {
        assert cdata == ToBe(length, 2) + text && [] + text == text;
      }
    }

    /** Append to the name buffer and keep it terminated. */
    method RetainName(text: seq<byte>)
      requires nameDisplay.Length == CONTRACT_NAME_SIZE && nameDisplayUsed + |text| < CONTRACT_NAME_SIZE
      modifies this`nameDisplayUsed, nameDisplay
      ensures nameDisplayUsed == old(nameDisplayUsed) + |text|
      ensures nameDisplay[..nameDisplayUsed] == old(nameDisplay[..nameDisplayUsed]) + text
      ensures nameDisplay[nameDisplayUsed] == 0
    {
      var used := nameDisplayUsed;
      forall i | 0 <= i < |text| {
        nameDisplay[used + i] := text[i];
      }
      used := used + |text|;
      nameDisplay[used] := 0;
      nameDisplayUsed := used;
    }

    /** The marker replaces the name, terminator included. */
    method ShowMarker()
      requires nameDisplay.Length == CONTRACT_NAME_SIZE
      modifies nameDisplay
      ensures CString(nameDisplay[..]) == TOO_LONG
    {
      forall i | 0 <= i <= |TOO_LONG| {
        nameDisplay[i] := if i < |TOO_LONG| then TOO_LONG[i] else 0;
      }
      assert nameDisplay[..] == TOO_LONG + [0] + nameDisplay[|TOO_LONG| + 1..];
      CStringOf(TOO_LONG, nameDisplay[|TOO_LONG| + 1..]);
    }

    lemma RowShowsName(name: seq<byte>)
      requires nameDisplay.Length == CONTRACT_NAME_SIZE && |name| < CONTRACT_NAME_SIZE && DisplayableText(name)
      requires nameDisplay[..|name|] == name && nameDisplay[|name|] == 0
      ensures CString(nameDisplay[..]) == name
    {
      hide CString;
      assert nameDisplay[..] == name + [0] + nameDisplay[|name| + 1..];
      CStringOf(name, nameDisplay[|name| + 1..]);
    }

    /** The first parameter packet announces the length; no packet may carry more than is left. */
    method AnnounceParams(cdata: Data) returns (sw: int, paramsOffset: nat)
      modifies this`phase, this`paramsLength, this`remainingParamsLength
      ensures paramsOffset == if old(phase) == FirstParams then 2 else 0
      ensures old(phase) == FirstParams ==>
                && sw == (if |cdata| < 2 then SWO_INCORRECT_DATA
                          else if FromBe(cdata[..2]) + 2 < |cdata| then ERROR_INVALID_PARAMS_LENGTH else SWO_SUCCESS)
                && (sw == SWO_SUCCESS ==>
                      && phase == NextParams && paramsLength == FromBe(cdata[..2]) <= UINT16_MAX
                      && ToBe(paramsLength, 2) == cdata[..2] && remainingParamsLength == paramsLength + 2)
      ensures old(phase) != FirstParams ==>
                && sw == (if remainingParamsLength < |cdata| then ERROR_INVALID_PARAMS_LENGTH else SWO_SUCCESS)
                && unchanged(this)
    {
      hide FromBe, ToBe;
      sw, paramsOffset := SWO_SUCCESS, 0;
      if phase == FirstParams {
        paramsOffset := 2;
        if |cdata| < 2 {
          return SWO_INCORRECT_DATA, paramsOffset;
        }
        paramsLength := U16(cdata[..2]);
        remainingParamsLength := paramsLength + 2;
        if remainingParamsLength < |cdata| {
          return ERROR_INVALID_PARAMS_LENGTH, paramsOffset;
        }
        phase := NextParams;
        ToBeFromBe(cdata[..2]);
      } else if remainingParamsLength < |cdata| {
        sw := ERROR_INVALID_PARAMS_LENGTH;
      }
    }

    /** The parameter packets; the last one brings up the review. */
    method HandleParams(cdata: Data) returns (reply: Reply)
      requires Valid()
      modifies this
      ensures nameDisplay.Length == CONTRACT_NAME_SIZE && reply == Step(which, old(model), Packet(2, cdata)).reply
      ensures reply.Open() ==> Valid() && model == Step(which, old(model), Packet(2, cdata)).next
    {
      hide FromBe, ToBe, CString, ShowsFixedFields, Transcript, Digested, DisplayableText, NameRow;
      ghost var was := model;
      var sw, paramsOffset := AnnounceParams(cdata);
      if sw != SWO_SUCCESS {
        return Throw(sw);
      }
      var more := cdata[paramsOffset..];
      hash, paramsHash := hash + cdata, paramsHash + more;
      remainingParamsLength := remainingParamsLength - |cdata|;
      ghost var params := (if was.ParamsNext? then was.params else []) + more;
      ghost var length := if was.ParamsFirst? then paramsLength else was.paramsLength;
      ParamsStep(was, cdata, more, length);
      HashedParams(was, cdata, more, length);
      if remainingParamsLength > 0 {
        model := ParamsNext(was.path, was.head, was.name, length, params);
        return Ack;
      }
      model := Review(was.path, was.head, was.name, params);
      return Sign;
    }

    lemma ParamsStep(was: State, cdata: Data, more: seq<byte>, length: nat)
      requires was.ParamsFirst? || was.ParamsNext?
      requires was.ParamsFirst? ==> |cdata| >= 2 && more == cdata[2..] && length == FromBe(cdata[..2])
      requires was.ParamsNext? ==> more == cdata && length == was.paramsLength
      ensures var params := (if was.ParamsNext? then was.params else []) + more;
        |params| <= length ==>
          Step(which, was, Packet(2, cdata))
          == if |params| == length then Result(Review(was.path, was.head, was.name, params), Sign)
             else Result(ParamsNext(was.path, was.head, was.name, length, params), Ack)
    {
      hide FromBe;
    }

    lemma HashedParams(was: State, cdata: Data, more: seq<byte>, length: nat)
      requires was.ParamsFirst? || was.ParamsNext?
      requires was.ParamsFirst? ==> |cdata| >= 2 && more == cdata[2..] && ToBe(length, 2) == cdata[..2]
      requires was.ParamsNext? ==> more == cdata && length == was.paramsLength
      ensures var params := (if was.ParamsNext? then was.params else []) + more;
        && Transcript(was) + cdata == Transcript(ParamsNext(was.path, was.head, was.name, length, params))
        && Digested(was) + more == Digested(ParamsNext(was.path, was.head, was.name, length, params))
        && (|params| == length ==>
              && Transcript(was) + cdata == Transcript(Review(was.path, was.head, was.name, params))
              && Digested(was) + more == Digested(Review(was.path, was.head, was.name, params)))
    {
      hide ToBe;
      if was.ParamsFirst? {
        assert cdata == ToBe(length, 2) + more && [] + more == more;
      }
    }

    /** handle_init_contract and handle_update_contract */
    method Handle(p1: uint8, cdata: Data, isInitialCall: bool) returns (reply: Reply)
      requires Valid() && (isInitialCall ==> Zeroed()) && !model.Fresh?
      modifies this, nameDisplay
      ensures var s := if isInitialCall then Fresh else old(model);
        && reply == Step(which, s, Packet(p1, cdata)).reply
        && (reply.Open() ==> Valid() && model == Step(which, s, Packet(p1, cdata)).next)
      ensures reply.Throw? ==> Valid() && Zeroed()
    {
      hide Begin, TakeName, TakeParams, CString, Transcript;
      if isInitialCall {
        model := Fresh;
      }
      if p1 == 0 && isInitialCall {
        reply := HandleInitial(cdata);
      } else if p1 == 1 {
        reply := HandleName(cdata);
      } else if p1 == 2 {
        reply := HandleParams(cdata);
      } else {
        reply := Throw(ERROR_INVALID_STATE);
      }
      if reply.Throw? {
        Clear();
      }
    }
  }

  function U64(s: seq<byte>): (n: uint64)
    requires |s| == 8
    ensures n == FromBe(s)
  {
    Pow256Values();
    FromBe(s)
  }

  function U16(s: seq<byte>): (n: uint32)
    requires |s| == 2
    ensures n == FromBe(s) <= UINT16_MAX
  {
    Pow256Values();
    FromBe(s)
  }
}
