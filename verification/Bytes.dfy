/** Bytes, fixed-width big-endian integers and displayable text, as every handler reads them. */
module Bytes {
  type byte = b: int | 0 <= b < 256

  const UINT8_MAX := 0xFF
  const UINT16_MAX := 0xFFFF
  const UINT32_MAX := 0xFFFF_FFFF
  const UINT64_MAX := 0xFFFF_FFFF_FFFF_FFFF

  type uint8 = n: int | 0 <= n <= 0xFF
  type uint16 = n: int | 0 <= n <= 0xFFFF
  type uint32 = n: int | 0 <= n <= 0xFFFF_FFFF
  type uint64 = n: int | 0 <= n <= 0xFFFF_FFFF_FFFF_FFFF

  /** The data of a packet that reaches a handler: the dispatcher refuses an empty one. */
  type Data = s: seq<byte> | 1 <= |s| <= UINT8_MAX witness [0]

  /** 256 to the power `k`: one more than the largest value of `k` bytes. */
  function Pow256(k: nat): (p: nat)
    ensures p > 0
  {
    if k == 0 then 1 else 256 * Pow256(k - 1)
  }

  /** The `k` low-order bytes of `n`, most significant first. */
  function ToBe(n: nat, k: nat): (s: seq<byte>)
    ensures |s| == k
  {
    if k == 0 then [] else ToBe(n / 256, k - 1) + [n % 256]
  }

  /** The number a big-endian byte string denotes (U2BE, U4BE and U8BE in the source). */
  function FromBe(s: seq<byte>): (n: nat)
    ensures n < Pow256(|s|)
  {
    if s == [] then 0 else FromBe(s[..|s| - 1]) * 256 + s[|s| - 1]
  }

  lemma {:induction false} FromBeToBe(n: nat, k: nat)
    requires n < Pow256(k)
    ensures FromBe(ToBe(n, k)) == n
  {
    if k > 0 {
      FromBeToBe(n / 256, k - 1);
      assert ToBe(n, k)[..k - 1] == ToBe(n / 256, k - 1);
    }
  }

  lemma {:induction false} ToBeFromBe(s: seq<byte>)
    ensures ToBe(FromBe(s), |s|) == s
  {
    if s != [] {
      ToBeFromBe(s[..|s| - 1]);
    }
  }

  lemma ToBeInjective(m: nat, n: nat, k: nat)
    requires m < Pow256(k) && n < Pow256(k) && ToBe(m, k) == ToBe(n, k)
    ensures m == n
  {
    FromBeToBe(m, k);
    FromBeToBe(n, k);
  }

  lemma Pow256Values()
    ensures Pow256(0) == 1 && Pow256(1) == 0x100 && Pow256(2) == 0x1_0000
    ensures Pow256(4) == 0x1_0000_0000 && Pow256(8) == 0x1_0000_0000_0000_0000
  {
    assert Pow256(3) == 0x100_0000;
    assert Pow256(4) == 0x1_0000_0000;
    assert Pow256(5) == 0x100_0000_0000;
    assert Pow256(6) == 0x1_0000_0000_0000;
    assert Pow256(7) == 0x100_0000_0000_0000;
  }

  /** The numbers of two, four and eight bytes, the most significant byte first. */
  lemma BigEndian(a: byte, b: byte, c: byte, d: byte, e: byte, f: byte, g: byte, h: byte)
    ensures FromBe([a]) == a && FromBe([a, b]) == 0x100 * (a as int) + b
    ensures FromBe([a, b, c, d]) == 0x100_0000 * (a as int) + 0x1_0000 * (b as int) + 0x100 * (c as int) + d
    ensures FromBe([a, b, c, d, e, f, g, h])
         == 0x100_0000_0000_0000 * (a as int) + 0x1_0000_0000_0000 * (b as int) + 0x100_0000_0000 * (c as int)
            + 0x1_0000_0000 * (d as int) + 0x100_0000 * (e as int) + 0x1_0000 * (f as int) + 0x100 * (g as int) + h
  {
    hide FromBe;
    LastByte([], a, [a]);
    LastByte([a], b, [a, b]);
    LastByte([a, b], c, [a, b, c]);
    LastByte([a, b, c], d, [a, b, c, d]);
    LastByte([a, b, c, d], e, [a, b, c, d, e]);
    LastByte([a, b, c, d, e], f, [a, b, c, d, e, f]);
    LastByte([a, b, c, d, e, f], g, [a, b, c, d, e, f, g]);
    LastByte([a, b, c, d, e, f, g], h, [a, b, c, d, e, f, g, h]);
  }

  lemma LastByte(s: seq<byte>, b: byte, t: seq<byte>)
    requires t == s + [b]
    ensures FromBe([]) == 0 && FromBe(t) == FromBe(s) * 256 + b
  {
    assert t[..|s|] == s;
  }

  /** Concatenation of a list of byte strings: what a hash fed chunk by chunk has absorbed. */
  function Flatten(chunks: seq<seq<byte>>): seq<byte>
  {
    if chunks == [] then [] else chunks[0] + Flatten(chunks[1..])
  }

  lemma {:induction false} FlattenAppend(chunks: seq<seq<byte>>, last: seq<byte>)
    ensures Flatten(chunks + [last]) == Flatten(chunks) + last
  {
    if chunks == [] {
      assert [last][1..] == [];
      assert Flatten([last]) == last + Flatten([]);
    } else {
      assert (chunks + [last])[1..] == chunks[1..] + [last];
      FlattenAppend(chunks[1..], last);
    }
  }

  /** The ASCII codes of a word. */
  function Ascii(word: string): (s: seq<byte>)
    requires forall i :: 0 <= i < |word| ==> word[i] < '\U{0080}'
    ensures |s| == |word| && forall i :: 0 <= i < |s| ==> s[i] == word[i] as int
  {
    seq(|word|, i requires 0 <= i < |word| => word[i] as byte)
  }

  predicate IsDisplayable(b: byte) {
    0x20 <= b && b != 0x7F
  }

  predicate DisplayableText(text: seq<byte>) {
    forall i :: 0 <= i < |text| ==> IsDisplayable(text[i])
  }

  lemma DisplayableParts(a: seq<byte>, b: seq<byte>)
    ensures DisplayableText(a + b) <==> DisplayableText(a) && DisplayableText(b)
  {
    if DisplayableText(a + b) {
      forall i | 0 <= i < |a| ensures IsDisplayable(a[i]) { assert (a + b)[i] == a[i]; }
      forall i | 0 <= i < |b| ensures IsDisplayable(b[i]) { assert (a + b)[|a| + i] == b[i]; }
    }
  }

  /** is_displayable_text: the loop that refuses control bytes. */
  method IsDisplayableText(text: seq<byte>) returns (ok: bool)
    ensures ok <==> DisplayableText(text)
    ensures ok <==> forall i :: 0 <= i < |text| ==> 32 <= text[i] && text[i] != 127
  {
    for i := 0 to |text|
      invariant forall j :: 0 <= j < i ==> IsDisplayable(text[j])
    {
      if text[i] < 0x20 || text[i] == 0x7F {
        return false;
      }
    }
    return true;
  }

  /** What a screen shows of a NUL-terminated buffer. */
  function CString(buffer: seq<byte>): (s: seq<byte>)
    ensures 0 !in s && s <= buffer
    ensures |s| < |buffer| ==> buffer[|s|] == 0
  {
    if buffer == [] || buffer[0] == 0 then [] else [buffer[0]] + CString(buffer[1..])
  }

  lemma {:induction false} CStringOf(text: seq<byte>, rest: seq<byte>)
    requires 0 !in text
    ensures CString(text + [0] + rest) == text
  {
    if text != [] {
      assert (text + [0] + rest)[1..] == text[1..] + [0] + rest;
      CStringOf(text[1..], rest);
    }
  }
}
