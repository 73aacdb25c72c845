/** to_paginated_hex of src/helpers/numberHelpers.c: hexadecimal with a line break every sixteen characters. */
module Hex {
  import opened Bytes
  import opened Status

  const HEX_PAGINATION_WIDTH := 16
  const NEWLINE: byte := 10
  /** Past this many bytes the counter of line breaks, a byte itself, wraps around. */
  const MAX_PAGINATED := 2048

  function Digit(n: nat): (b: byte)
    requires n < 16
    ensures b != 0 && b != NEWLINE
  {
    if n < 10 then 48 + n else 87 + n
  }

  function Pair(b: byte): (s: seq<byte>)
    ensures |s| == 2 && 0 !in s
  {
    [Digit(b / 16), Digit(b % 16)]
  }

  /** A break before every ninth byte. */
  function Break(i: nat): (s: seq<byte>)
    ensures 0 !in s
  {
    if i > 0 && i % 8 == 0 then [NEWLINE] else []
  }

  function Paginated(bytes: seq<byte>): (s: seq<byte>)
    ensures 0 !in s
  {
    if bytes == [] then []
    else
      var n := |bytes| - 1;
      Paginated(bytes[..n]) + Break(n) + Pair(bytes[n])
  }

  /** The breaks within `n` bytes. */
  function Breaks(n: nat): nat {
    if n == 0 then 0 else (n - 1) / 8
  }

  lemma OneMoreBreak(n: nat)
    ensures Breaks(n + 1) == Breaks(n) + |Break(n)|
    ensures n > 0 ==> Breaks(n) == (2 * n - 1) / HEX_PAGINATION_WIDTH
  {
    if n > 0 {
      var q, r := (n - 1) / 8, (n - 1) % 8;
      assert 2 * n - 1 == 16 * q + (2 * r + 1);
    }
  }

  lemma {:induction false} PaginatedLength(bytes: seq<byte>)
    ensures |Paginated(bytes)| == 2 * |bytes| + Breaks(|bytes|)
  {
    if bytes != [] {
      hide Breaks, Break;
      PaginatedLength(bytes[..|bytes| - 1]);
      OneMoreBreak(|bytes| - 1);
    } else {
      assert Breaks(0) == 0;
    }
  }

  lemma PairInjective(a: byte, b: byte)
    requires Pair(a) == Pair(b)
    ensures a == b
  {
    assert Pair(a)[0] == Pair(b)[0] && Pair(a)[1] == Pair(b)[1];
    assert a == a / 16 * 16 + a % 16 && b == b / 16 * 16 + b % 16;
  }

  lemma {:induction false} SameLengthInjective(a: seq<byte>, b: seq<byte>)
    requires |a| == |b| && Paginated(a) == Paginated(b)
    ensures a == b
  {
    if a != [] {
      var n := |a| - 1;
      PaginatedLength(a[..n]);
      PaginatedLength(b[..n]);
      var s, k := Paginated(a), |Paginated(a[..n])|;
      assert Paginated(a[..n]) == s[..k] == Paginated(b[..n]);
      assert Pair(a[n]) == s[k + |Break(n)|..] == Pair(b[n]);
      PairInjective(a[n], b[n]);
      SameLengthInjective(a[..n], b[..n]);
      assert a == a[..n] + [a[n]] && b == b[..n] + [b[n]];
    }
  }

  /** What the screen shows determines the bytes. */
  lemma PaginatedInjective(a: seq<byte>, b: seq<byte>)
    requires Paginated(a) == Paginated(b)
    ensures a == b
  {
    PaginatedLength(a);
    PaginatedLength(b);
    SameLengthInjective(a, b);
  }

  /** The value of a hexadecimal digit, 0 to 9 or a to f. */
  function DigitValue(c: byte): int {
    if '0' as int <= c <= '9' as int then c - '0' as int else if 'a' as int <= c <= 'f' as int then c - 'a' as int + 10 else -1
  }

  /** Byte `i` stands behind two digits for each byte before it and a break for each eight: its high digit, then its low one. */
  lemma {:induction false} PaginatedAt(bytes: seq<byte>, i: nat)
    requires i < |bytes|
    ensures var s, k := Paginated(bytes), 2 * i + i / 8;
      && k + 2 <= |s| && bytes[i] == 16 * DigitValue(s[k]) + DigitValue(s[k + 1])
      && 0 <= DigitValue(s[k]) < 16 && 0 <= DigitValue(s[k + 1]) < 16
      && (i > 0 && i % 8 == 0 ==> s[k - 1] == 10)
  {
    hide Pair, Break, DigitValue;
    var n := |bytes| - 1;
    if i < n {
      PaginatedAt(bytes[..n], i);
      assert Paginated(bytes[..n]) <= Paginated(bytes);
    } else {
      PairDenotes(bytes[n]);
      PaginatedLength(bytes[..n]);
      BreaksBefore(n);
      var before := Paginated(bytes[..n]) + Break(n);
      assert Paginated(bytes) == before + Pair(bytes[n]) && |before| == 2 * n + n / 8;
    }
  }

  lemma BreaksBefore(n: nat)
    ensures Breaks(n) + |Break(n)| == n / 8 && (n > 0 && n % 8 == 0 ==> Break(n) == [10])
  {
  }

  lemma PairDenotes(b: byte)
    ensures b == 16 * DigitValue(Pair(b)[0]) + DigitValue(Pair(b)[1])
    ensures 0 <= DigitValue(Pair(b)[0]) < 16 && 0 <= DigitValue(Pair(b)[1]) < 16
  {
  }

  /** The two digits of byte `i`, and the break behind them if more bytes follow. */
  method PutPair(bytes: seq<byte>, asHex: array<byte>, i: nat, offset: nat) returns (broken: bool)
    requires i < |bytes| && 2 * i + offset + 2 + |Break(i + 1)| <= asHex.Length
    modifies asHex
    ensures broken == (Break(i + 1) != [] && i + 1 < |bytes|)
    ensures asHex[..2 * i + offset + 2] == old(asHex[..2 * i + offset]) + Pair(bytes[i])
    ensures broken ==> asHex[2 * i + offset + 2] == NEWLINE
  {
    asHex[2 * i + offset] := Digit(bytes[i] / 16);
    asHex[2 * i + (offset + 1)] := Digit(bytes[i] % 16);
    broken := (2 * (i + 1)) % HEX_PAGINATION_WIDTH == 0 && i != |bytes| - 1;
    if broken {
      asHex[2 * i + (offset + 2)] := NEWLINE;
    }
  }

  lemma Room(i: nat, n: nat, length: nat)
    requires i < n && 2 * n + Breaks(n) + 1 <= length
    ensures 2 * i + Breaks(i) + |Break(i)| + 2 + |Break(i + 1)| <= length
  {
  }

  /** to_paginated_hex; `offset` is the source's byte-wide count of line breaks. */
  method ToPaginatedHex(bytes: seq<byte>, asHex: array<byte>) returns (o: Outcome)
    requires bytes == [] ==> asHex.Length > 0
    modifies asHex
    ensures o == if bytes != [] && asHex.Length < 2 * |bytes| + Breaks(|bytes|) + 1
                 then Thrown(ERROR_BUFFER_OVERFLOW) else Returned
    ensures o.Returned? && |bytes| <= MAX_PAGINATED ==> CString(asHex[..]) == Paginated(bytes)
  {
    hide Breaks, Break, Paginated, Pair, CString;
    var len := |bytes|;
    OneMoreBreak(len);
    assert Breaks(0) == 0 && Break(0) == [] && Paginated([]) == [] by { NothingWritten(); }
    if len > 0 && asHex.Length < len * 2 + (2 * len - 1) / HEX_PAGINATION_WIDTH + 1 {
      return Thrown(ERROR_BUFFER_OVERFLOW);
    }
    var offset: uint8 := 0;
    for i := 0 to len
      invariant offset <= Breaks(i) + (if i < len then |Break(i)| else 0)
      invariant len <= MAX_PAGINATED ==> offset == Breaks(i) + (if i < len then |Break(i)| else 0)
      invariant 2 * i + offset <= asHex.Length
      invariant len <= MAX_PAGINATED ==> asHex[..2 * i + offset] == Paginated(bytes[..i]) + (if i < len then Break(i) else [])
    {
      Room(i, len, asHex.Length);
      OneMoreBreak(i);
      FewBreaks(i + 1);
      var broken := PutPair(bytes, asHex, i, offset);
      OneMorePair(bytes, i);
      if broken {
        offset := (offset + 1) % 256;
      }
    }
    asHex[2 * len + offset] := 0;
    if len <= MAX_PAGINATED {
      assert bytes[..len] == bytes;
      assert asHex[..] == Paginated(bytes) + [0] + asHex[2 * len + offset + 1..];
      CStringOf(Paginated(bytes), asHex[2 * len + offset + 1..]);
    }
    return Returned;
  }

  lemma NothingWritten()
    ensures Breaks(0) == 0 && Break(0) == [] && Paginated([]) == []
  {
  }

  lemma FewBreaks(n: nat)
    ensures n < MAX_PAGINATED ==> Breaks(n) + |Break(n)| < 256
    ensures Break(n) == [] || Break(n) == [NEWLINE]
    ensures n == MAX_PAGINATED ==> Breaks(n) < 256
  {
  }

  lemma OneMorePair(bytes: seq<byte>, i: nat)
    requires i < |bytes|
    ensures Paginated(bytes[..i + 1]) == Paginated(bytes[..i]) + Break(i) + Pair(bytes[i])
  {
    assert bytes[..i + 1][..i] == bytes[..i];
  }
}
