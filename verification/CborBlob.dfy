/** src/helpers/cbor_data_blob.c: a memo or registered-data blob, accumulated over packets and decoded. */
module CborBlob {
  import opened Bytes
  import opened Cbor
  import opened Decimal
  import opened Options
  import opened Status

  const MAX_CBOR_STRING_SIZE := 255
  const MAX_CBOR_BLOB_SIZE := 2 + MAX_CBOR_STRING_SIZE

  /** What a blob may hold; NegativeInt(n) denotes -1 - n. */
  datatype Item = UnsignedInt(n: nat) | NegativeInt(n: nat) | Text(text: seq<byte>)

  predicate ValidItem(item: Item) {
    match item
    case UnsignedInt(n) => n <= UINT64_MAX
    case NegativeInt(n) => n <= UINT64_MAX
    case Text(text) => |text| <= MAX_CBOR_STRING_SIZE && DisplayableText(text)
  }

  /** The one shortest-form encoding of an item (section 4.1 of RFC 8949). */
  function Encode(item: Item): seq<byte>
    requires ValidItem(item)
  {
    match item
    case UnsignedInt(n) => WriteHead(UNSIGNED, n, Shortest(n))
    case NegativeInt(n) => WriteHead(NEGATIVE, n, Shortest(n))
    case Text(text) => WriteHead(TEXT, |text|, Shortest(|text|)) + text
  }

  function Label(item: Item): string {
    match item
    case UnsignedInt(_) => "Unsigned integer"
    case NegativeInt(_) => "Negative integer"
    case Text(_) => "Text"
  }

  const MINUS: byte := 45
  const MINUS_ONE: seq<byte> := [32, 45, 32, 49]  // " - 1"

  /** The value row of the review. */
  function Display(item: Item): seq<byte> {
    match item
    case UnsignedInt(n) => Dec(n)
    case NegativeInt(n) => [MINUS] + (if n == UINT64_MAX then Dec(n) + MINUS_ONE else Dec(n + 1))
    case Text(text) => text
  }

  /** The rows name the kind of item and spell its value; only -2^64 is written as a difference. */
  lemma RowsDenote(item: Item)
    requires ValidItem(item)
    ensures match item
      case UnsignedInt(n) => Label(item) == "Unsigned integer" && Value(Display(item)) == n
      case NegativeInt(n) =>
        && Label(item) == "Negative integer" && Display(item)[0] == '-' as int
        && (n < 0xFFFF_FFFF_FFFF_FFFF ==> -Value(Display(item)[1..]) == -1 - n)
        && (n == 0xFFFF_FFFF_FFFF_FFFF ==>
              && |Display(item)| > 4 && Display(item)[|Display(item)| - 4..] == Ascii(" - 1")
              && -Value(Display(item)[1..|Display(item)| - 4]) - 1 == -1 - n)
      case Text(text) => Label(item) == "Text" && Display(item) == text
  {
    match item
    case UnsignedInt(n) => ValueOfDec(n);
    case NegativeInt(n) =>
      ValueOfDec(n);
      ValueOfDec(n + 1);
      var d := Display(item);
      if n == UINT64_MAX {
        assert d == [MINUS] + (Dec(n) + MINUS_ONE);
        assert d[1..|d| - 4] == Dec(n) && d[|d| - 4..] == MINUS_ONE;
      } else {
        assert d[1..] == Dec(n + 1);
      }
    case _ =>
  }

  /** The shortest-form test of lines 59 to 74, on the width the first header byte names. */
  predicate ArgumentIsCanonical(argument: nat, width: Width) {
    match width
    case Inline => true
    case One => argument > 23
    case Two => argument > UINT8_MAX
    case Four => argument > UINT16_MAX
    case Eight => argument > UINT32_MAX
  }

  lemma CanonicalMeansShortest(argument: nat, width: Width)
    requires argument <= UINT64_MAX && width.Holds(argument)
    ensures ArgumentIsCanonical(argument, width) <==> width == Shortest(argument)
  {
    Pow256Values();
  }

  datatype Parsed = Accepted(item: Item) | Refused(sw: int)

  /** The outcome of decoding a complete blob, with its status word. */
  function ParseBlob(buffer: seq<byte>): Parsed {
    var c := Open(buffer);
    if c.None? then Refused(ERROR_INVALID_TRANSACTION)
    else if c.value.IsDefinite(UNSIGNED) || c.value.IsDefinite(NEGATIVE) then
      if c.value.Behind() == [] && ArgumentIsCanonical(c.value.Argument(), c.value.Item().value.width) then
        Accepted(if c.value.Is(UNSIGNED) then UnsignedInt(c.value.Argument()) else NegativeInt(c.value.Argument()))
      else Refused(ERROR_INVALID_TRANSACTION)
    else if c.value.IsDefinite(TEXT) then
      if && c.value.Argument() == |c.value.Behind()|
         && ArgumentIsCanonical(c.value.Argument(), c.value.Item().value.width)
         && c.value.Argument() <= MAX_CBOR_STRING_SIZE
         && DisplayableText(c.value.Behind())
      then Accepted(Text(c.value.Behind()))
      else Refused(ERROR_INVALID_TRANSACTION)
    else Refused(ERROR_UNSUPPORTED_CBOR)
  }

  lemma AcceptedIsEncoded(buffer: seq<byte>)
    requires ParseBlob(buffer).Accepted?
    ensures ValidItem(ParseBlob(buffer).item) && Encode(ParseBlob(buffer).item) == buffer
  {
    WriteAfterRead(buffer);
    var h := ReadHead(buffer).value;
    ArgumentRange(h);
    CanonicalMeansShortest(h.argument, h.width);
  }

  lemma HeadIsRead(major: byte, n: nat, payload: seq<byte>)
    requires major < 7 && n <= UINT64_MAX
    ensures var c := Cursor(WriteHead(major, n, Shortest(n)) + payload, 1);
      && c.Item() == Some(Definite(major, n, Shortest(n))) && c.Behind() == payload
      && ArgumentIsCanonical(n, Shortest(n))
  {
    ReadAfterWrite(major, n, Shortest(n), payload);
    CanonicalMeansShortest(n, Shortest(n));
  }

  lemma EncodedIsAccepted(item: Item)
    requires ValidItem(item)
    ensures ParseBlob(Encode(item)) == Accepted(item)
  {
    match item
    case UnsignedInt(n) => HeadIsRead(UNSIGNED, n, []);
      assert Encode(item) + [] == Encode(item);
    case NegativeInt(n) => HeadIsRead(NEGATIVE, n, []);
      assert Encode(item) + [] == Encode(item);
    case Text(text) => HeadIsRead(TEXT, |text|, text);
  }

  /** A blob is accepted exactly when it is the shortest-form encoding of a value that can be shown. */
  lemma AcceptedExactly(buffer: seq<byte>, item: Item)
    ensures ParseBlob(buffer) == Accepted(item) <==> ValidItem(item) && Encode(item) == buffer
  {
    if ParseBlob(buffer) == Accepted(item) {
      AcceptedIsEncoded(buffer);
    }
    if ValidItem(item) && Encode(item) == buffer {
      EncodedIsAccepted(item);
    }
  }

  lemma ArgumentRange(h: Head)
    requires h.Definite? && h.width.Holds(h.argument)
    ensures h.argument <= UINT64_MAX
  {
    Pow256Values();
  }

  lemma NotDecimal(m: nat, n: nat)
    ensures Dec(m) + MINUS_ONE != Dec(n)
  {
    var s := Dec(m) + MINUS_ONE;
    assert !IsDigit(s[|Dec(m)|]);
  }

  /** The type row and the value row together determine the value shown. */
  lemma ReviewInjective(a: Item, b: Item)
    requires ValidItem(a) && ValidItem(b)
    requires Label(a) == Label(b) && Display(a) == Display(b)
    ensures a == b
  {
    assert |Label(UnsignedInt(0))| == 16 && |Label(NegativeInt(0))| == 16 && |Label(Text([]))| == 4;
    assert Label(UnsignedInt(0))[0] != Label(NegativeInt(0))[0];
    match a
    case UnsignedInt(n) => DecInjective(n, b.n);
    case NegativeInt(n) =>
      var x, y := Display(a)[1..], Display(b)[1..];
      assert x == if n == UINT64_MAX then Dec(n) + MINUS_ONE else Dec(n + 1);
      assert y == if b.n == UINT64_MAX then Dec(b.n) + MINUS_ONE else Dec(b.n + 1);
      if n != UINT64_MAX && b.n != UINT64_MAX {
        DecInjective(n + 1, b.n + 1);
      } else if n != b.n {
        NotDecimal(n, b.n + 1);
        NotDecimal(b.n, n + 1);
      }
    case Text(_) =>
  }

  /** Two blobs that review alike are the same signed bytes. */
  lemma ReviewDeterminesBytes(a: seq<byte>, b: seq<byte>)
    requires ParseBlob(a).Accepted? && ParseBlob(b).Accepted?
    requires Label(ParseBlob(a).item) == Label(ParseBlob(b).item)
    requires Display(ParseBlob(a).item) == Display(ParseBlob(b).item)
    ensures a == b
  {
    AcceptedExactly(a, ParseBlob(a).item);
    AcceptedExactly(b, ParseBlob(b).item);
    ReviewInjective(ParseBlob(a).item, ParseBlob(b).item);
  }

  /** The display buffer always holds the value row and its terminator. */
  lemma DisplayFits(item: Item)
    requires ValidItem(item)
    ensures |Display(item)| <= MAX_CBOR_STRING_SIZE && 0 !in Display(item)
    ensures item == NegativeInt(UINT64_MAX) ==> |Dec(item.n)| == 20
  {
    if !item.Text? {
      Pow10Values();
      DecLength(item.n, 20);
      DecLength(item.n, 19);
      DecLength(item.n + 1, 20);
    }
  }

  /** cborContext_t */
  class CborContext {
    var cborLength: uint16
    const cborBuf: array<byte>
    var cborBufLen: uint16
    var displayLen: uint8
    const display: array<byte>
    var typeLabel: string

    ghost predicate Valid()
      reads this
    {
      && cborBuf.Length == MAX_CBOR_BLOB_SIZE && display.Length == MAX_CBOR_STRING_SIZE + 1 && cborBuf != display
      && cborBufLen + cborLength <= MAX_CBOR_BLOB_SIZE
    }

    ghost function Received(): seq<byte>
      requires Valid()
      reads this, cborBuf
    {
      cborBuf[..cborBufLen]
    }

    /** The two rows of the review show this item. */
    ghost predicate Shows(item: Item)
      reads this, display
    {
      typeLabel == Label(item) && CString(display[..]) == Display(item)
    }

    constructor ()
      ensures Valid() && fresh(cborBuf) && fresh(display)
      ensures cborLength == 0 && Received() == []
    {
      cborBuf := new byte[MAX_CBOR_BLOB_SIZE](_ => 0);
      display := new byte[MAX_CBOR_STRING_SIZE + 1](_ => 0);
      cborLength, cborBufLen, displayLen, typeLabel := 0, 0, 0, "";
    }

    /** Copy `text` and its terminator into the display buffer. */
    method WriteDisplay(text: seq<byte>)
      requires Valid() && |text| < display.Length && 0 !in text
      modifies display
      ensures CString(display[..]) == text
    {
      forall i | 0 <= i < |text| {
        display[i] := text[i];
      }
      display[|text|] := 0;
      assert display[..] == text + [0] + display[|text| + 1..];
      CStringOf(text, display[|text| + 1..]);
    }

    /** parse_complete_cbor */
    method ParseCompleteCbor() returns (sw: int)
      requires Valid()
      modifies this`displayLen, this`typeLabel, display
      ensures Valid() && Received() == old(Received())
      ensures match ParseBlob(Received())
              case Accepted(item) => sw == SWO_SUCCESS && ValidItem(item) && Shows(item)
              case Refused(e) => sw == e && sw != SWO_SUCCESS
    {
      hide ReadHead, Encode, Dec;
      ghost var buffer := Received();
      var start := Open(cborBuf[..cborBufLen]);
      if start.None? {
        return ERROR_INVALID_TRANSACTION;
      }
      var value := start.value;
      displayLen := 0;
      ghost var parsed := ParseBlob(buffer);
      if parsed.Accepted? {
        AcceptedExactly(buffer, parsed.item);
        DisplayFits(parsed.item);
      }

      if value.IsDefinite(UNSIGNED) {
        var n := value.Argument();
        if value.Behind() != [] || !ArgumentIsCanonical(n, value.Item().value.width) {
          return ERROR_INVALID_TRANSACTION;
        }
        typeLabel := "Unsigned integer";
        WriteDisplay(Dec(n));
      } else if value.IsDefinite(NEGATIVE) {
        var n := value.Argument();
        if value.Behind() != [] || !ArgumentIsCanonical(n, value.Item().value.width) {
          return ERROR_INVALID_TRANSACTION;
        }
        typeLabel := "Negative integer";
        if n == UINT64_MAX {
          WriteDisplay([MINUS] + (Dec(n) + MINUS_ONE));
        } else {
          WriteDisplay([MINUS] + Dec(n + 1));
        }
      } else if value.Is(TEXT) {
        if value.Item().value.Indefinite? {
          return ERROR_UNSUPPORTED_CBOR;
        }
        var content := StringContent(value);
        if content.None? || |value.Behind()| != value.Argument() {
          return ERROR_INVALID_TRANSACTION;
        }
        assert content.value == value.Behind();
        if !ArgumentIsCanonical(value.Argument(), value.Item().value.width) {
          return ERROR_INVALID_TRANSACTION;
        }
        if |content.value| > MAX_CBOR_STRING_SIZE {
          return ERROR_INVALID_TRANSACTION;
        }
        var displayable := IsDisplayableText(content.value);
        if !displayable {
          return ERROR_INVALID_TRANSACTION;
        }
        typeLabel := "Text";
        WriteDisplay(content.value);
        displayLen := |content.value|;
      } else {
        return ERROR_UNSUPPORTED_CBOR;
      }
      return SWO_SUCCESS;
    }

    /** Append a chunk to cborBuf, and decode once the declared length has arrived. */
    method Accumulate(cdata: seq<byte>) returns (sw: int)
      requires Valid() && |cdata| <= cborLength
      modifies this, cborBuf, display
      ensures Valid() && Received() == old(Received()) + cdata && cborLength == old(cborLength) - |cdata|
      ensures cborLength > 0 ==> sw == SWO_SUCCESS
      ensures cborLength == 0 ==> match ParseBlob(Received())
                                  case Accepted(item) => sw == SWO_SUCCESS && ValidItem(item) && Shows(item)
                                  case Refused(e) => sw == e && sw != SWO_SUCCESS
    {
      ghost var was := Received();
      forall i | 0 <= i < |cdata| {
        cborBuf[cborBufLen + i] := cdata[i];
      }
      cborBufLen := cborBufLen + |cdata|;
      cborLength := cborLength - |cdata|;
      assert Received() == was + cdata;
      if cborLength == 0 {
        sw := ParseCompleteCbor();
      } else {
        sw := SWO_SUCCESS;
      }
    }

    /** readCborInitial; a throw is the only other outcome than a status word. */
    method ReadCborInitial(cdata: seq<byte>) returns (o: Outcome, sw: int)
      requires Valid() && |cdata| <= UINT8_MAX && cborLength <= MAX_CBOR_BLOB_SIZE
      modifies this, cborBuf, display
      ensures Valid()
      ensures o == if |cdata| < 1 || old(cborLength) < 1 || |cdata| > old(cborLength)
                   then Thrown(SWO_INCORRECT_DATA) else Returned
      ensures o.Returned? ==> Received() == cdata && cborLength == old(cborLength) - |cdata|
      ensures o.Returned? && cborLength > 0 ==> sw == SWO_SUCCESS
      ensures o.Returned? && cborLength == 0 ==>
                match ParseBlob(Received())
                case Accepted(item) => sw == SWO_SUCCESS && ValidItem(item) && Shows(item)
                case Refused(e) => sw == e && sw != SWO_SUCCESS
    {
      sw := SWO_SUCCESS;
      if |cdata| < 1 || cborLength < 1 {
        return Thrown(SWO_INCORRECT_DATA), sw;
      }
      if |cdata| > cborLength {
        return Thrown(SWO_INCORRECT_DATA), sw;
      }
      cborBufLen := 0;
      assert Received() == [];
      sw := Accumulate(cdata);
      o := Returned;
    }

    /** readCborContent; with the declared length bounded the overflow guard is never what throws. */
    method ReadCborContent(cdata: seq<byte>) returns (o: Outcome, sw: int)
      requires Valid()
      modifies this, cborBuf, display
      ensures Valid()
      ensures o == if |cdata| > old(cborLength) then Thrown(SWO_INCORRECT_DATA) else Returned
      ensures o.Returned? ==> Received() == old(Received()) + cdata && cborLength == old(cborLength) - |cdata|
      ensures o.Returned? && cborLength > 0 ==> sw == SWO_SUCCESS
      ensures o.Returned? && cborLength == 0 ==>
                match ParseBlob(Received())
                case Accepted(item) => sw == SWO_SUCCESS && ValidItem(item) && Shows(item)
                case Refused(e) => sw == e && sw != SWO_SUCCESS
    {
      sw := SWO_SUCCESS;
      if |cdata| > cborLength {
        return Thrown(SWO_INCORRECT_DATA), sw;
      }
      if cborBufLen + |cdata| > MAX_CBOR_BLOB_SIZE {
        assert false;
        return Thrown(SWO_INCORRECT_DATA), sw;
      }
      sw := Accumulate(cdata);
      o := Returned;
    }
  }
}
