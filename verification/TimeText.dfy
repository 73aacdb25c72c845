/** src/helpers/time.c lines 98 to 188: a timestamp written into a caller's buffer, and its reader. */
module TimeText {
  import opened Bytes
  import opened Calendar
  import opened Decimal
  import opened NumberHelpers
  import opened Status
  import opened Time

  const DASH: byte := 45
  const BLANK: byte := 32
  const COLON: byte := 58
  const DOT: byte := 46

  /** The field ranges time.h documents. */
  predicate FieldsInRange(tm: Tm) {
    0 <= tm.mon < 12 && 1 <= tm.mday <= 31 && 0 <= tm.hour < 24 && 0 <= tm.min < 60 && 0 <= tm.sec < 60
  }

  /** Everything after the year, to the second. */
  function StampTail(tm: Tm): (s: seq<byte>)
    requires FieldsInRange(tm)
    ensures |s| == 15
  {
    [DASH] + Pad(tm.mon + 1, 2) + [DASH] + Pad(tm.mday, 2) + [BLANK]
    + Pad(tm.hour, 2) + [COLON] + Pad(tm.min, 2) + [COLON] + Pad(tm.sec, 2)
  }

  /** yyyy-mm-dd hh:mm:ss */
  function Stamp(tm: Tm): seq<byte>
    requires FieldsInRange(tm) && tm.year > 0
  {
    Dec(tm.year + 1900) + StampTail(tm)
  }

  /** yyyy-mm-dd hh:mm:ss.mmm */
  function FullStamp(tm: Tm, milliseconds: nat): seq<byte>
    requires FieldsInRange(tm) && tm.year > 0
  {
    Stamp(tm) + [DOT] + Pad(milliseconds, 3)
  }

  /** prefixWithZero followed by number_to_text. */
  method TwoDigits(dst: array<byte>, offset: nat, n: nat) returns (end: nat, o: Outcome)
    requires offset <= dst.Length && n < 100
    modifies dst
    ensures o == if offset + 2 <= dst.Length then Returned else Thrown(ERROR_BUFFER_OVERFLOW)
    ensures o.Returned? ==> end == offset + 2 && dst[..end] == old(dst[..offset]) + Pad(n, 2)
  {
    end := offset;
    assert Pad(n, 2) == [ZERO + n / 10 % 10] + [ZERO + n % 10] by {
      assert Pad(n / 10, 1) == Pad(n / 100, 0) + [ZERO + n / 10 % 10];
    }
    if n < 10 {
      end, o := PutByte(dst, offset, ZERO);
      if o.Thrown? {
        return;
      }
    } else {
      assert Dec(n) == Dec(n / 10) + [ZERO + n % 10];
    }
    end, o := NumberToText(dst, end, n);
  }

  /** A separator, then two digits. */
  method Field(dst: array<byte>, offset: nat, separator: byte, n: nat) returns (end: nat, o: Outcome)
    requires offset <= dst.Length && n < 100
    modifies dst
    ensures o == if offset + 3 <= dst.Length then Returned else Thrown(ERROR_BUFFER_OVERFLOW)
    ensures o.Returned? ==> end == offset + 3 && dst[..end] == old(dst[..offset]) + ([separator] + Pad(n, 2))
  {
    end, o := PutByte(dst, offset, separator);
    if o.Returned? {
      end, o := TwoDigits(dst, end, n);
    }
  }

  method TimeToDisplayText(tm: Tm, dst: array<byte>) returns (o: Outcome)
    requires FieldsInRange(tm)
    modifies dst
    ensures tm.year <= 0 ==> o == Thrown(ERROR_INVALID_TRANSACTION)
    ensures tm.year > 0 ==> o == if dst.Length > |Stamp(tm)| then Returned else Thrown(ERROR_BUFFER_OVERFLOW)
    ensures o.Returned? ==> dst[..|Stamp(tm)| + 1] == Stamp(tm) + [0]
  {
    if tm.year <= 0 {
      return Thrown(ERROR_INVALID_TRANSACTION);
    }
    ghost var year := Dec(tm.year + 1900);
    assert |year| >= 4 by {
      DecLength(tm.year + 1900, 3);
      Pow10Values();
    }
    if dst.Length < 20 {
      return Thrown(ERROR_BUFFER_OVERFLOW);
    }
    var offset;
    offset, o := NumberToText(dst, 0, tm.year + 1900);
    if o.Thrown? { return; }
    offset, o := Field(dst, offset, DASH, tm.mon + 1);
    if o.Thrown? { return; }
    offset, o := Field(dst, offset, DASH, tm.mday);
    if o.Thrown? { return; }
    offset, o := Field(dst, offset, BLANK, tm.hour);
    if o.Thrown? { return; }
    offset, o := Field(dst, offset, COLON, tm.min);
    if o.Thrown? { return; }
    offset, o := Field(dst, offset, COLON, tm.sec);
    if o.Thrown? { return; }
    StampParts(tm);
    offset, o := PutByte(dst, offset, 0);
  }

  lemma StampParts(tm: Tm)
    requires FieldsInRange(tm) && tm.year > 0
    ensures Stamp(tm) == [] + Dec(tm.year + 1900) + ([DASH] + Pad(tm.mon + 1, 2)) + ([DASH] + Pad(tm.mday, 2))
                         + ([BLANK] + Pad(tm.hour, 2)) + ([COLON] + Pad(tm.min, 2)) + ([COLON] + Pad(tm.sec, 2))
  {
  }

  /** appendMilliseconds: the append point is the terminator found in `dst`. */
  method AppendMilliseconds(dst: array<byte>, milliseconds: nat) returns (o: Outcome)
    modifies dst
    ensures var text := CString(old(dst[..]));
      && o == (if milliseconds > 999 then Thrown(ERROR_INVALID_TRANSACTION)
               else if |text| + 5 > dst.Length then Thrown(ERROR_BUFFER_OVERFLOW)
               else Returned)
      && (o.Returned? ==> dst[..|text| + 5] == text + [DOT] + Pad(milliseconds, 3) + [0])
  {
    if milliseconds > 999 {
      return Thrown(ERROR_INVALID_TRANSACTION);
    }
    ghost var was := dst[..];
    ghost var text := CString(was);
    var offset := 0;
    while offset < dst.Length && dst[offset] != 0
      invariant offset <= |text| && dst[..] == was
    {
      CStringAt(was, offset);
      offset := offset + 1;
    }
    assert offset == |text|;
    if offset + 5 > dst.Length {
      return Thrown(ERROR_BUFFER_OVERFLOW);
    }
    PadThree(milliseconds);
    dst[offset] := DOT;
    dst[offset + 1] := ZERO + milliseconds / 100;
    dst[offset + 2] := ZERO + milliseconds / 10 % 10;
    dst[offset + 3] := ZERO + milliseconds % 10;
    dst[offset + 4] := 0;
    assert dst[..offset] == was[..offset] == text;
    return Returned;
  }

  lemma PadThree(n: nat)
    requires n < 1000
    ensures Pad(n, 3) == [ZERO + n / 100, ZERO + n / 10 % 10, ZERO + n % 10]
  {
    assert Pad(n / 10, 2) == Pad(n / 10 / 10, 1) + [ZERO + n / 10 % 10];
    assert Pad(n / 10 / 10, 1) == Pad(n / 10 / 10 / 10, 0) + [ZERO + n / 10 / 10 % 10];
    assert n / 10 / 10 == n / 100;
  }

  lemma CStringAt(buffer: seq<byte>, i: nat)
    requires i <= |CString(buffer)| && i < |buffer| && buffer[i] != 0
    ensures i < |CString(buffer)|
  {
  }

  /** A timestamp text determines the second and the millisecond it was made from. */
  lemma FullStampInjective(a: Tm, m: nat, t: int, b: Tm, n: nat, u: int)
    requires Represents(a, t) && Represents(b, u) && a.year > 0 && b.year > 0 && m < 1000 && n < 1000
    requires FullStamp(a, m) == FullStamp(b, n)
    ensures t == u && m == n
  {
    var x, y := Dec(a.year + 1900), Dec(b.year + 1900);
    var k := |x|;
    assert |y| == k;
    assert x == FullStamp(a, m)[..k] && y == FullStamp(b, n)[..k];
    DecInjective(a.year + 1900, b.year + 1900);
    TailInjective(a, m, b, n, FullStamp(a, m)[k..]);
  }

  lemma TailInjective(a: Tm, m: nat, b: Tm, n: nat, tail: seq<byte>)
    requires FieldsInRange(a) && FieldsInRange(b) && m < 1000 && n < 1000
    requires tail == StampTail(a) + [DOT] + Pad(m, 3) == StampTail(b) + [DOT] + Pad(n, 3)
    ensures a.mon == b.mon && a.mday == b.mday && a.hour == b.hour && a.min == b.min && a.sec == b.sec && m == n
  {
    assert Pad(a.mon + 1, 2) == tail[1..3] == Pad(b.mon + 1, 2);
    assert Pad(a.mday, 2) == tail[4..6] == Pad(b.mday, 2);
    assert Pad(a.hour, 2) == tail[7..9] == Pad(b.hour, 2);
    assert Pad(a.min, 2) == tail[10..12] == Pad(b.min, 2);
    assert Pad(a.sec, 2) == tail[13..15] == Pad(b.sec, 2);
    assert Pad(m, 3) == tail[16..] == Pad(n, 3);
    Pow10Values();
    PadInjective(a.mon + 1, b.mon + 1, 2);
    PadInjective(a.mday, b.mday, 2);
    PadInjective(a.hour, b.hour, 2);
    PadInjective(a.min, b.min, 2);
    PadInjective(a.sec, b.sec, 2);
    PadInjective(m, n, 3);
  }

  /** The rendering of a release time, read back: yyyy-mm-dd hh:mm:ss.mmm, the year of four digits or five. */
  lemma ReleaseReadsBack(text: seq<byte>, ms: nat, tm: Tm)
    requires ShowsAs(text, ms, tm)
    ensures var n := |text|;
      && n >= 20 && Represents(tm, ms / 1000)
      && Value(text[..n - 19]) == tm.year + 1900 && Value(text[n - 18..n - 16]) == tm.mon + 1
      && Value(text[n - 15..n - 13]) == tm.mday && Value(text[n - 12..n - 10]) == tm.hour
      && Value(text[n - 9..n - 7]) == tm.min && Value(text[n - 6..n - 4]) == tm.sec
      && Value(text[n - 3..]) == ms % 1000
    ensures var n := |text|;
      && text[n - 19] == text[n - 16] == '-' as int && text[n - 13] == ' ' as int
      && text[n - 10] == text[n - 7] == ':' as int && text[n - 4] == '.' as int
  {
    var year, tail := Dec(tm.year + 1900), StampTail(tm) + [DOT] + Pad(ms % 1000, 3);
    TailParts(tm, ms % 1000, tail);
    ValueOfDec(tm.year + 1900);
    YearAndTail(tm, ms % 1000);
    hide Dec, StampTail, Pad, Value, Represents, FullStamp;
    TailBehind(year, tail);
  }

  lemma YearAndTail(tm: Tm, ms: nat)
    requires FieldsInRange(tm) && tm.year > 0
    ensures FullStamp(tm, ms) == Dec(tm.year + 1900) + (StampTail(tm) + [DOT] + Pad(ms, 3))
  {
    hide Dec, StampTail, Pad;
  }

  lemma TailBehind(year: seq<byte>, tail: seq<byte>)
    requires |tail| == 19
    ensures var s, n := year + tail, |year + tail|;
      && s[..n - 19] == year && s[n - 18..n - 16] == tail[1..3] && s[n - 15..n - 13] == tail[4..6]
      && s[n - 12..n - 10] == tail[7..9] && s[n - 9..n - 7] == tail[10..12] && s[n - 6..n - 4] == tail[13..15]
      && s[n - 3..] == tail[16..19]
  {
    Behind(year, tail, 1, 3);
    Behind(year, tail, 4, 6);
    Behind(year, tail, 7, 9);
    Behind(year, tail, 10, 12);
    Behind(year, tail, 13, 15);
    Behind(year, tail, 16, 19);
  }

  lemma Behind(a: seq<byte>, b: seq<byte>, i: nat, j: nat)
    requires i <= j <= |b|
    ensures (a + b)[|a| + i..|a| + j] == b[i..j]
  {
  }

  lemma TailParts(tm: Tm, ms: nat, tail: seq<byte>)
    requires FieldsInRange(tm) && ms < 1000 && tail == StampTail(tm) + [DOT] + Pad(ms, 3)
    ensures Value(tail[1..3]) == tm.mon + 1 && Value(tail[4..6]) == tm.mday && Value(tail[7..9]) == tm.hour
    ensures Value(tail[10..12]) == tm.min && Value(tail[13..15]) == tm.sec && Value(tail[16..19]) == ms
    ensures tail[0] == tail[3] == '-' as int && tail[6] == ' ' as int && tail[9] == tail[12] == ':' as int && tail[15] == '.' as int
  {
    hide Pad, Value;
    Pow10Values();
    assert tail[1..3] == Pad(tm.mon + 1, 2) && tail[4..6] == Pad(tm.mday, 2) && tail[7..9] == Pad(tm.hour, 2);
    assert tail[10..12] == Pad(tm.min, 2) && tail[13..15] == Pad(tm.sec, 2) && tail[16..19] == Pad(ms, 3);
    ValueOfPad(tm.mon + 1, 2);
    ValueOfPad(tm.mday, 2);
    ValueOfPad(tm.hour, 2);
    ValueOfPad(tm.min, 2);
    ValueOfPad(tm.sec, 2);
    ValueOfPad(ms, 3);
  }

  lemma PadInjective(m: nat, n: nat, k: nat)
    requires m < Pow10(k) && n < Pow10(k) && Pad(m, k) == Pad(n, k)
    ensures m == n
  {
    ValueOfPad(m, k);
    ValueOfPad(n, k);
  }

  // ---- sign_transfer_schedule.c lines 37 to 53: one release timestamp ----

  /** The size of displayTimestamp. */
  const TIMESTAMP_SIZE := 25

  /** The first millisecond of the year 11900, the first one the tm_year test refuses. */
  const RELEASE_LIMIT := 313360531200000

  ghost predicate ShowsAs(text: seq<byte>, ms: nat, tm: Tm) {
    Represents(tm, ms / 1000) && 0 < tm.year <= 9999 && text == FullStamp(tm, ms % 1000)
  }

  /** `text` is the rendering of the signed release time `ms`. */
  ghost predicate ShowsRelease(text: seq<byte>, ms: nat) {
    exists tm :: ShowsAs(text, ms, tm)
  }

  /** Distinct accepted release times never look the same. */
  lemma ReleaseTextInjective(text: seq<byte>, m: nat, n: nat)
    requires ShowsRelease(text, m) && ShowsRelease(text, n)
    ensures m == n
  {
    var a :| ShowsAs(text, m, a);
    var b :| ShowsAs(text, n, b);
    ShowsAsInjective(text, m, a, n, b);
  }

  lemma ShowsAsInjective(text: seq<byte>, m: nat, a: Tm, n: nat, b: Tm)
    requires ShowsAs(text, m, a) && ShowsAs(text, n, b)
    ensures m == n
  {
    FullStampInjective(a, m % 1000, m / 1000, b, n % 1000, n / 1000);
    assert m == 1000 * (m / 1000) + m % 1000;
    assert n == 1000 * (n / 1000) + n % 1000;
  }

  /** The year test refuses exactly the milliseconds from year 11900 on, and never a time before 1970. */
  lemma YearOfRelease(tm: Tm, ms: nat)
    requires Represents(tm, ms / 1000)
    ensures tm.year > 0
    ensures tm.year <= 9999 <==> ms < RELEASE_LIMIT
  {
    var y := tm.year + 1900;
    DayWithinYear(y, tm.mon, tm.mday);
    if y < 1970 {
      YearsAreOrdered(y, 1970);
      assert false;
    }
    assert DaysBeforeYear(11900) - DaysBeforeYear(1970) == 3626858;
    assert 86400 * 1000 * 3626858 == RELEASE_LIMIT;
    if y < 11900 {
      YearsAreOrdered(y, 11900);
    } else if y > 11900 {
      YearsAreOrdered(11900, y);
    }
  }

  /** A five-digit year fills the 25-byte buffer to the last byte; a four-digit one leaves one spare. */
  lemma StampLength(tm: Tm, ms: nat)
    requires FieldsInRange(tm) && 0 < tm.year <= 9999 && tm.year + 1900 >= 1970
    ensures |FullStamp(tm, ms)| + 1 == if tm.year + 1900 >= 10000 then TIMESTAMP_SIZE else TIMESTAMP_SIZE - 1
  {
    Pow10Values();
    DecLength(tm.year + 1900, 3);
    DecLength(tm.year + 1900, 4);
    DecLength(tm.year + 1900, 5);
  }

  /** No overflow throw is reachable from a release time: it is shown in full, or refused by the year test. */
  method ShowRelease(timestampMs: uint64, displayTimestamp: array<byte>) returns (o: Outcome)
    requires displayTimestamp.Length == TIMESTAMP_SIZE
    modifies displayTimestamp
    ensures o == if timestampMs < RELEASE_LIMIT then Returned else Thrown(ERROR_INVALID_PARAM)
    ensures o.Returned? ==> ShowsRelease(CString(displayTimestamp[..]), timestampMs)
  {
    var valid, time := SecondsToTm(timestampMs / 1000);
    if !valid {
      return Thrown(ERROR_INVALID_PARAM);
    }
    YearOfRelease(time, timestampMs);
    if time.year > 9999 {
      return Thrown(ERROR_INVALID_PARAM);
    }
    StampLength(time, timestampMs % 1000);
    ghost var stamp := Stamp(time);
    StampHasNoNul(time);
    o := TimeToDisplayText(time, displayTimestamp);
    assert displayTimestamp[..] == stamp + [0] + displayTimestamp[|stamp| + 1..];
    CStringOf(stamp, displayTimestamp[|stamp| + 1..]);
    o := AppendMilliseconds(displayTimestamp, timestampMs % 1000);
    ghost var full := FullStamp(time, timestampMs % 1000);
    assert full == stamp + [DOT] + Pad(timestampMs % 1000, 3);
    assert displayTimestamp[..] == full + [0] + displayTimestamp[|full| + 1..];
    CStringOf(full, displayTimestamp[|full| + 1..]);
    assert ShowsAs(full, timestampMs, time);
  }

  lemma StampHasNoNul(tm: Tm)
    requires FieldsInRange(tm) && tm.year > 0
    ensures 0 !in Stamp(tm)
  {
  }
}
