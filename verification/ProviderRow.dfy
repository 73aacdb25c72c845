/**
 The identity-provider row of an added credential: src/handler/sign_credential_deployment.c writes
 the digits without a terminator into a nine-byte buffer that earlier credentials have used.
 */
module ProviderRow {
  import opened Bytes
  import opened Decimal

  const PROVIDER_SIZE := 9

  /** number_to_text into the front of a buffer. */
  function WriteDigits(buffer: seq<byte>, n: nat): (r: seq<byte>)
    requires |Dec(n)| <= |buffer|
    ensures |r| == |buffer|
  {
    Dec(n) + buffer[|Dec(n)|..]
  }

  predicate Fits(providers: seq<nat>) {
    forall i :: 0 <= i < |providers| ==> |Dec(providers[i])| <= PROVIDER_SIZE
  }

  /** The buffer after the providers of one transaction were written to it, one after the other. */
  function BufferAfter(providers: seq<nat>): (r: seq<byte>)
    requires Fits(providers)
    ensures |r| == PROVIDER_SIZE
  {
    if providers == [] then seq(PROVIDER_SIZE, _ => 0 as byte)
    else WriteDigits(BufferAfter(providers[..|providers| - 1]), providers[|providers| - 1])
  }

  function Longest(providers: seq<nat>): nat {
    if providers == [] then 0
    else
      var rest, n := Longest(providers[..|providers| - 1]), |Dec(providers[|providers| - 1])|;
      if n > rest then n else rest
  }

  lemma {:induction false} BufferShape(providers: seq<nat>)
    requires Fits(providers)
    ensures Longest(providers) <= PROVIDER_SIZE
    ensures forall i :: 0 <= i < PROVIDER_SIZE ==> (BufferAfter(providers)[i] == 0 <==> i >= Longest(providers))
  {
    hide Dec;
    if providers != [] {
      BufferShape(providers[..|providers| - 1]);
      var digits := Dec(providers[|providers| - 1]);
      assert forall i :: 0 <= i < |digits| ==> IsDigit(digits[i]);
    }
  }

  lemma {:induction false} LongestBounds(providers: seq<nat>)
    ensures forall i :: 0 <= i < |providers| ==> |Dec(providers[i])| <= Longest(providers)
    ensures providers == [] ==> Longest(providers) == 0
    ensures providers != [] ==> exists i :: 0 <= i < |providers| && |Dec(providers[i])| == Longest(providers)
  {
    hide Dec;
    if providers != [] {
      var n := |providers| - 1;
      var init := providers[..n];
      LongestBounds(init);
      forall i | 0 <= i < |providers| ensures |Dec(providers[i])| <= Longest(providers) {
        if i < n { assert providers[i] == init[i]; }
      }
      if |Dec(providers[n])| >= Longest(init) {
        assert |Dec(providers[n])| == Longest(providers);
      } else {
        assert init != [];
        var i :| 0 <= i < |init| && |Dec(init[i])| == Longest(init);
        assert |Dec(providers[i])| == Longest(providers);
      }
    }
  }

  /** Text that ends where a zero follows, or not at all. */
  lemma {:induction false} CStringEnds(text: seq<byte>, rest: seq<byte>)
    requires 0 !in text
    ensures CString(text + rest) == text <==> rest == [] || rest[0] == 0
  {
    if text == [] {
      assert [] + rest == rest;
    } else {
      assert (text + rest)[1..] == text[1..] + rest;
      CStringEnds(text[1..], rest);
    }
  }

  /**
   The row is read up to a zero byte, past the buffer into the revoker identity if there is none
   before. It shows the provider of the last credential exactly when that has at most eight digits
   and no credential before it had more digits.
   */
  lemma RowIsExactIff(before: seq<nat>, provider: nat, following: seq<byte>)
    requires Fits(before) && |Dec(provider)| <= PROVIDER_SIZE
    requires following != [] && following[0] != 0
    ensures Fits(before + [provider])
    ensures CString(BufferAfter(before + [provider]) + following) == Dec(provider)
       <==> |Dec(provider)| < PROVIDER_SIZE && forall i :: 0 <= i < |before| ==> |Dec(before[i])| <= |Dec(provider)|
  {
    hide CString, Dec, BufferAfter, Longest;
    var all, digits := before + [provider], Dec(provider);
    AppendedBuffer(before, provider);
    BufferShape(before);
    LongestBounds(before);
    DigitsAreNotZero(digits);
    var buffer := BufferAfter(before);
    var rest := buffer[|digits|..] + following;
    assert BufferAfter(all) + following == digits + rest;
    CStringEnds(digits, rest);
    if |digits| < PROVIDER_SIZE {
      assert rest[0] == buffer[|digits|];
      assert rest[0] == 0 <==> |digits| >= Longest(before);
    } else {
      assert rest == following;
    }
  }

  lemma AppendedBuffer(before: seq<nat>, provider: nat)
    requires Fits(before) && |Dec(provider)| <= PROVIDER_SIZE
    ensures Fits(before + [provider])
    ensures BufferAfter(before + [provider]) == Dec(provider) + BufferAfter(before)[|Dec(provider)|..]
  {
    assert (before + [provider])[..|before|] == before;
  }

  lemma DigitsAreNotZero(digits: seq<byte>)
    requires forall i :: 0 <= i < |digits| ==> IsDigit(digits[i])
    ensures 0 !in digits
  {
  }

  /** A second credential with a shorter provider: 12345 then 67 reads 67345. */
  lemma ShorterProviderIsMisread()
    ensures Fits([12345, 67])
    ensures BufferAfter([12345, 67]) == Dec(67345) + [0, 0, 0, 0]
  {
    var digits := [ZERO + 1, ZERO + 2, ZERO + 3, ZERO + 4, ZERO + 5];
    assert Dec(12345) == digits by {
      assert Dec(1) == [ZERO + 1];
      assert Dec(12) == Dec(1) + [ZERO + 2];
      assert Dec(123) == Dec(12) + [ZERO + 3];
      assert Dec(1234) == Dec(123) + [ZERO + 4];
    }
    assert Dec(67) == [ZERO + 6, ZERO + 7] by {
      assert Dec(6) == [ZERO + 6];
    }
    assert Dec(67345) == [ZERO + 6, ZERO + 7, ZERO + 3, ZERO + 4, ZERO + 5] by {
      assert Dec(6) == [ZERO + 6];
      assert Dec(67) == Dec(6) + [ZERO + 7];
      assert Dec(673) == Dec(67) + [ZERO + 3];
      assert Dec(6734) == Dec(673) + [ZERO + 4];
    }
    assert [12345, 67][..1] == [12345] && [12345][..0] == [];
    assert BufferAfter([]) == seq(PROVIDER_SIZE, _ => 0 as byte);
    assert BufferAfter([12345]) == digits + [0, 0, 0, 0];
  }
}
