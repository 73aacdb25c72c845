/** src/helpers/numberHelpers.c: digits written at a cursor into a caller's buffer. */
module NumberHelpers {
  import opened Bytes
  import opened Decimal
  import opened Status

  method PutByte(dst: array<byte>, offset: nat, b: byte) returns (end: nat, o: Outcome)
    requires offset <= dst.Length
    modifies dst
    ensures o == if offset < dst.Length then Returned else Thrown(ERROR_BUFFER_OVERFLOW)
    ensures o.Returned? ==> end == offset + 1 && end <= dst.Length && dst[..end] == old(dst[..offset]) + [b]
  {
    if offset >= dst.Length {
      return offset, Thrown(ERROR_BUFFER_OVERFLOW);
    }
    dst[offset] := b;
    return offset + 1, Returned;
  }

  /** number_to_text: digits without a terminator. */
  method NumberToText(dst: array<byte>, offset: nat, n: nat) returns (end: nat, o: Outcome)
    requires offset <= dst.Length
    modifies dst
    ensures o == if offset + |Dec(n)| <= dst.Length then Returned else Thrown(ERROR_BUFFER_OVERFLOW)
    ensures o.Returned? ==> end == offset + |Dec(n)| && dst[..end] == old(dst[..offset]) + Dec(n)
    ensures o.Returned? ==> dst[end..] == old(dst[..])[end..]
  {
    var digits := Dec(n);
    if dst.Length - offset < |digits| {
      return offset, Thrown(ERROR_BUFFER_OVERFLOW);
    }
    forall i | 0 <= i < |digits| {
      dst[offset + i] := digits[i];
    }
    return offset + |digits|, Returned;
  }

  /** bin_to_dec: digits and a terminator, behind what the buffer already holds. */
  method BinToDec(dst: array<byte>, offset: nat, n: nat) returns (o: Outcome)
    requires offset <= dst.Length && 0 !in dst[..offset]
    modifies dst
    ensures o == if offset + |Dec(n)| + 1 <= dst.Length then Returned else Thrown(ERROR_BUFFER_OVERFLOW)
    ensures o.Returned? ==> CString(dst[..]) == old(dst[..offset]) + Dec(n)
  {
    hide Dec, CString;
    ghost var before := dst[..offset];
    var end;
    end, o := NumberToText(dst, offset, n);
    if o.Thrown? {
      return;
    }
    if dst.Length < end + 1 {
      return Thrown(ERROR_BUFFER_OVERFLOW);
    }
    dst[end] := 0;
    ghost var text := before + Dec(n);
    assert 0 !in text by { TextHasNoZero(before, Dec(n)); }
    assert dst[..] == text + [0] + dst[end + 1..];
    CStringOf(text, dst[end + 1..]);
  }

  lemma TextHasNoZero(before: seq<byte>, digits: seq<byte>)
    requires 0 !in before && forall i :: 0 <= i < |digits| ==> IsDigit(digits[i])
    ensures 0 !in before + digits
  {
  }

  /** explicit_bzero */
  method Wipe(dst: array<byte>)
    modifies dst
    ensures forall i :: 0 <= i < dst.Length ==> dst[i] == 0
  {
    forall i | 0 <= i < dst.Length {
      dst[i] := 0;
    }
  }
}
