/** Every schedule with at least one pair can be signed, with and without a memo. */
module ScheduleRuns {
  import opened Bytes
  import opened CborBlob
  import opened DerivationPath
  import opened Options
  import opened Schedule
  import opened TimeText
  import opened TxHash

  /** Every release is one the application can show. */
  predicate Showable(pairs: seq<Pair>) {
    forall i :: 0 <= i < |pairs| ==> pairs[i].timestamp < RELEASE_LIMIT
  }

  lemma StepShowsShowable(s: State, withMemo: bool, e: Event)
    requires Inv(s) && Showable(s.shown)
    ensures Step(s, withMemo, e).reply.Open() ==> Showable(Step(s, withMemo, e).next.shown)
  {
    hide Counting, Head, PairBytes, ToBe, FromBe, ParseBlob, ReadOpening;
  }

  /** In every run, no pair is shown whose release time cannot be: from the year 11900 on there is none. */
  lemma {:induction false} ShownAreShowable(withMemo: bool, events: seq<Event>)
    requires Run(withMemo, events).Some?
    ensures forall k :: 0 <= k < |Run(withMemo, events).value.shown| ==>
              Run(withMemo, events).value.shown[k].timestamp < 313_360_531_200_000
    decreases |events|
  {
    hide Inv, Step;
    if events != [] {
      ShownAreShowable(withMemo, events[..|events| - 1]);
      StepShowsShowable(Run(withMemo, events[..|events| - 1]).value, withMemo, events[|events| - 1]);
    }
  }

  lemma Extend(withMemo: bool, events: seq<Event>, s: State, e: Event, t: State)
    requires Run(withMemo, events) == Some(s) && After(s, withMemo, e) == Some(t)
    ensures Run(withMemo, events + [e]) == Some(t)
  {
    assert (events + [e])[..|events|] == events;
  }

  /** Every packet is one that a command can carry. */
  predicate Carried(events: seq<Event>) {
    forall i :: 0 <= i < |events| && events[i].Packet? ==> 1 <= |events[i].cdata| <= UINT8_MAX
  }

  /** The same events, and some more. */
  predicate Continues(events: seq<Event>, more: seq<Event>) {
    events <= more && (Carried(events) ==> Carried(more))
  }

  function OnePair(p: Pair): (s: seq<byte>)
    ensures |s| == PAIR_SIZE
  {
    ToBe(p.timestamp, 8) + ToBe(p.amount, 8)
  }

  lemma {:induction false} PairBytesFront(pairs: seq<Pair>)
    requires pairs != []
    ensures PairBytes(pairs) == OnePair(pairs[0]) + PairBytes(pairs[1..])
  {
    hide ToBe;
    var n := |pairs| - 1;
    if n == 0 {
      assert pairs[..0] == [] && pairs[1..] == [];
      assert PairBytes([]) == [];
    } else {
      PairBytesFront(pairs[..n]);
      assert pairs[..n][1..] == pairs[1..][..n - 1] && pairs[1..][n - 1] == pairs[n];
    }
  }

  lemma {:induction false} PairBytesJoin(a: seq<Pair>, b: seq<Pair>)
    ensures PairBytes(a + b) == PairBytes(a) + PairBytes(b)
  {
    hide ToBe;
    if b == [] {
      assert a + b == a && PairBytes([]) == [];
    } else {
      var n := |b| - 1;
      assert (a + b)[..|a| + n] == a + b[..n];
      PairBytesJoin(a, b[..n]);
    }
  }

  lemma ReadPair(p: Pair, buffer: seq<byte>, pos: nat)
    requires pos + PAIR_SIZE <= |buffer| && buffer[pos..pos + PAIR_SIZE] == OnePair(p)
    ensures U64At(buffer, pos) == p.timestamp && U64At(buffer, pos + 8) == p.amount
  {
    hide ToBe, FromBe;
    Pow256Values();
    FromBeToBe(p.timestamp, 8);
    FromBeToBe(p.amount, 8);
    assert buffer[pos..pos + 8] == OnePair(p)[..8] == ToBe(p.timestamp, 8);
    assert buffer[pos + 8..pos + 16] == OnePair(p)[8..] == ToBe(p.amount, 8);
  }

  /** What does not change while pairs are shown. */
  predicate SameFlow(s: State, t: State) {
    && s.stage == t.stage && s.path == t.path && s.start == t.start && s.to == t.to && s.declared == t.declared
    && s.withMemo == t.withMemo && s.memo == t.memo
  }

  /** The packet still holds `pairs`. */
  predicate Holds(s: State, pairs: seq<Pair>) {
    && s.inPacket == |pairs| && s.pos + PAIR_SIZE * s.inPacket == |s.buffer| && s.buffer[s.pos..] == PairBytes(pairs)
  }

  /** Showing the next pair of the packet. */
  lemma ShowOne(s: State, pairs: seq<Pair>)
    requires Holds(s, pairs) && pairs != [] && Showable(pairs)
    ensures var r := ShowNext(s);
      && r.reply.Open() && SameFlow(s, r.next) && r.next.remaining == s.remaining
      && r.next.shown == s.shown + [pairs[0]] && Holds(r.next, pairs[1..])
      && r.next.screen == if s.remaining == 0 && |pairs| == 1 then SignScreen else PairScreen
  {
    hide ToBe, FromBe, PairBytes, OnePair;
    PairBytesFront(pairs);
    var one := s.buffer[s.pos..s.pos + PAIR_SIZE];
    assert s.buffer[s.pos..] == one + s.buffer[s.pos + PAIR_SIZE..];
    assert OnePair(pairs[0]) == PairBytes(pairs)[..PAIR_SIZE] == one;
    assert PairBytes(pairs[1..]) == PairBytes(pairs)[PAIR_SIZE..] == s.buffer[s.pos + PAIR_SIZE..];
    ReadPair(pairs[0], s.buffer, s.pos);
  }

  /** Accepting the pairs of a packet one by one. */
  lemma {:induction false} AcceptPairs(withMemo: bool, events: seq<Event>, s: State, pairs: seq<Pair>)
    returns (more: seq<Event>, t: State)
    requires Run(withMemo, events) == Some(s) && s.screen.PairScreen? && Holds(s, pairs) && Showable(pairs)
    requires s.remaining == 0 ==> pairs != []
    ensures Run(withMemo, more) == Some(t) && SameFlow(s, t) && t.remaining == s.remaining && t.shown == s.shown + pairs
    ensures t.screen == if s.remaining == 0 then SignScreen else NoScreen
    ensures Continues(events, more)
    decreases |pairs|
  {
    hide Run, Inv, ShowNext, PairBytes;
    assert Inv(s);
    if pairs == [] {
      EmptyPacket(s);
      t := ShowNext(s).next;
      Extend(withMemo, events, s, Approve, t);
      more := events + [Approve];
    } else {
      ShowOne(s, pairs);
      var m := ShowNext(s).next;
      Extend(withMemo, events, s, Approve, m);
      assert [pairs[0]] + pairs[1..] == pairs;
      assert s.shown + [pairs[0]] + pairs[1..] == s.shown + pairs;
      if m.screen.SignScreen? {
        more, t := events + [Approve], m;
      } else {
        more, t := AcceptPairs(withMemo, events + [Approve], m, pairs[1..]);
      }
    }
  }

  lemma EmptyPacket(s: State)
    requires s.inPacket == 0 && s.pos == |s.buffer|
    ensures ShowNext(s) == Result(s.(screen := NoScreen), Ack)
  {
  }

  lemma InOrder(shown: seq<Pair>, pairs: seq<Pair>, n: nat)
    requires 1 <= n <= |pairs|
    ensures shown + [pairs[..n][0]] + pairs[..n][1..] == shown + pairs[..n]
    ensures shown + pairs[..n] + pairs[n..] == shown + pairs
    ensures |pairs[n..]| == |pairs| - n && |pairs[..n]| == n
  {
    assert pairs[..n] + pairs[n..] == pairs;
  }

  /** All packets of pairs, the user accepting every pair. */
  lemma {:induction false} SendPairs(withMemo: bool, events: seq<Event>, s: State, pairs: seq<Pair>)
    returns (more: seq<Event>, t: State)
    requires Run(withMemo, events) == Some(s) && s.stage.Pairs? && s.screen.NoScreen?
    requires pairs != [] && s.remaining == |pairs| && Showable(pairs)
    ensures Run(withMemo, more) == Some(t) && SameFlow(s, t) && t.screen.SignScreen? && t.shown == s.shown + pairs
    ensures Continues(events, more)
    decreases |pairs|
  {
    hide Run, Inv, ShowNext, PairBytes;
    assert Inv(s);
    var n := Min(|pairs|, PAIRS_PER_PACKET);
    var now, later := pairs[..n], pairs[n..];
    var bytes := PairBytes(now);
    assert bytes[..PAIR_SIZE * n] == bytes;
    var taken := Take(s, n, bytes);
    assert taken.buffer[0..] == bytes;
    ShowOne(taken, now);
    var m := ShowNext(taken).next;
    var e := Packet(1, 0, bytes);
    Extend(withMemo, events, s, e, m);
    InOrder(s.shown, pairs, n);
    if m.screen.SignScreen? {
      more, t := events + [e], m;
    } else {
      more, t := AcceptPairs(withMemo, events + [e], m, now[1..]);
      if later != [] {
        more, t := SendPairs(withMemo, more, t, later);
      }
    }
  }

  /** A fee estimate may stand behind the initial packet, as P2 says. */
  predicate FeeSuffix(p2: uint8, suffix: seq<byte>) {
    p2 <= 1 && |suffix| == if p2 == 1 then 8 else 0
  }

  /** Any schedule of one to 255 pairs that the application can show reaches its signing screen. */
  lemma EveryScheduleCanBeSigned(first: seq<byte>, p2: uint8, suffix: seq<byte>, pairs: seq<Pair>)
    returns (events: seq<Event>, t: State)
    requires 1 <= |pairs| <= UINT8_MAX && Showable(pairs) && FeeSuffix(p2, suffix)
    requires var o := ReadOpening(first, KIND_SCHEDULE); o.Opening? && o.rest == [|pairs|] + suffix
    ensures Run(false, events) == Some(t) && t.screen.SignScreen? && t.shown == pairs
    ensures [Packet(0, p2, first)] <= events && (1 <= |first| <= UINT8_MAX ==> Carried(events))
    ensures var o := ReadOpening(first, KIND_SCHEDULE);
      t.path == o.path && t.hash == o.start + o.to + Count(|pairs|) + PairBytes(pairs)
  {
    hide Run, Inv, ReadOpening, PairBytes, Count;
    var e := Packet(0, p2, first);
    NothingSent(false);
    var s := InitialPlain(START, p2, first).next;
    Extend(false, [], START, e, s);
    var a := s.(stage := Pairs, screen := NoScreen);
    Extend(false, [] + [e], s, Approve, a);
    events, t := SendPairs(false, [] + [e] + [Approve], a, pairs);
    assert [] + pairs == pairs;
    SignedScheduleIsComplete(t, false, events);
    assert t.start + t.to + [] == t.start + t.to;
  }

  lemma NothingSent(withMemo: bool)
    ensures Run(withMemo, []) == Some(START)
  {
  }

  /** The memo in any chunks, up to the initial review. */
  lemma {:induction false} SendMemo(events: seq<Event>, s: State, chunks: seq<Data>) returns (more: seq<Event>, t: State)
    requires Run(true, events) == Some(s) && (s.stage.MemoStart? || s.stage.MemoNext?) && chunks != []
    requires s.memoLeft == |Flatten(chunks)| && ParseBlob(s.memo + Flatten(chunks)).Accepted?
    ensures Run(true, more) == Some(t) && t.stage.Pairs? && t.screen.InitialScreen? && t.memo == s.memo + Flatten(chunks)
    ensures t.path == s.path && t.start == s.start && t.to == s.to && t.declared == s.declared && t.remaining == s.remaining
    ensures t.withMemo && t.shown == [] && Continues(events, more)
    decreases |chunks|
  {
    hide Run, ParseBlob, Count, Head, PairBytes, Counting;
    assert Inv(s);
    var e, m := Packet(3, 0, chunks[0]), MemoPacket(s, 0, chunks[0]).next;
    assert |Flatten(chunks)| == |chunks[0]| + |Flatten(chunks[1..])|;
    assert s.memo + chunks[0] + Flatten(chunks[1..]) == s.memo + Flatten(chunks);
    assert s.stage.MemoStart? ==> [] + chunks[0] == chunks[0];
    if |chunks[0]| < s.memoLeft {
      Extend(true, events, s, e, m);
      more, t := SendMemo(events + [e], m, chunks[1..]);
    } else {
      assert s.memo + chunks[0] == s.memo + Flatten(chunks);
      t := MemoPacket(s, 0, chunks[0]).next;
      Extend(true, events, s, e, t);
      more := events + [e];
    }
  }

  /** The same with any accepted memo, in any chunks. */
  lemma EveryMemoScheduleCanBeSigned(first: seq<byte>, p2: uint8, suffix: seq<byte>, chunks: seq<Data>, pairs: seq<Pair>)
    returns (events: seq<Event>, t: State)
    requires 1 <= |pairs| <= UINT8_MAX && Showable(pairs) && FeeSuffix(p2, suffix)
    requires chunks != [] && ParseBlob(Flatten(chunks)).Accepted?
    requires var o := ReadOpening(first, KIND_SCHEDULE_WITH_MEMO);
      o.Opening? && o.rest == [|pairs|] + ToBe(|Flatten(chunks)|, 2) + suffix
    ensures Run(true, events) == Some(t) && t.screen.SignScreen? && t.shown == pairs && t.memo == Flatten(chunks)
    ensures [Packet(2, p2, first)] <= events && (1 <= |first| <= UINT8_MAX ==> Carried(events))
    ensures var o, memo := ReadOpening(first, KIND_SCHEDULE_WITH_MEMO), Flatten(chunks);
      t.path == o.path && t.hash == o.start + o.to + (ToBe(|memo|, 2) + memo) + Count(|pairs|) + PairBytes(pairs)
  {
    hide Run, Inv, ReadOpening, PairBytes, Count, ParseBlob, FromBe, ToBe, Flatten;
    var o, memo := ReadOpening(first, KIND_SCHEDULE_WITH_MEMO), Flatten(chunks);
    AcceptedMemoIsShort(memo);
    Pow256Values();
    FromBeToBe(|memo|, 2);
    assert o.rest[1..3] == ToBe(|memo|, 2);
    NothingSent(true);
    var e, s := Packet(2, p2, first), InitialMemo(START, p2, first).next;
    Extend(true, [], START, e, s);
    assert [] + memo == memo;
    events, t := SendMemo([] + [e], s, chunks);
    var a := t.(screen := NoScreen);
    Extend(true, events, t, Approve, a);
    events, t := SendPairs(true, events + [Approve], a, pairs);
    assert [] + pairs == pairs;
    SignedScheduleIsComplete(t, true, events);
  }

  lemma SplitAt(a: seq<byte>, b: seq<byte>, x: seq<byte>, y: seq<byte>)
    requires a + x == b + y && |a| == |b|
    ensures a == b && x == y
  {
    assert a == (a + x)[..|a|] && x == (a + x)[|a|..];
    assert b == (b + y)[..|b|] && y == (b + y)[|b|..];
  }

  /** The memo of a signed transfer, behind its length. */
  function MemoPart(s: State): seq<byte> {
    if s.withMemo then ToBe(|s.memo|, 2) + s.memo else []
  }

  lemma SplitMemo(s: State, t: State, x: seq<byte>, y: seq<byte>)
    requires s.withMemo == t.withMemo && |s.memo| <= MAX_CBOR_BLOB_SIZE && |t.memo| <= MAX_CBOR_BLOB_SIZE
    requires MemoPart(s) + x == MemoPart(t) + y
    ensures (s.withMemo ==> s.memo == t.memo) && x == y
  {
    hide ToBe;
    if s.withMemo {
      assert MemoPart(s) + x == ToBe(|s.memo|, 2) + (s.memo + x) && MemoPart(t) + y == ToBe(|t.memo|, 2) + (t.memo + y);
      SplitAt(ToBe(|s.memo|, 2), ToBe(|t.memo|, 2), s.memo + x, t.memo + y);
      Pow256Values();
      ToBeInjective(|s.memo|, |t.memo|, 2);
      SplitAt(s.memo, t.memo, x, y);
    } else {
      assert [] + x == x && [] + y == y;
    }
  }

  /** A memo that is accepted fits its buffer. */
  lemma AcceptedMemoIsShort(memo: seq<byte>)
    requires ParseBlob(memo).Accepted?
    ensures |memo| <= MAX_CBOR_BLOB_SIZE
  {
    hide ParseBlob;
    AcceptedIsEncoded(memo);
    EncodingIsShort(ParseBlob(memo).item);
  }

  lemma EncodingIsShort(item: Item)
    requires ValidItem(item)
    ensures |Encode(item)| <= MAX_CBOR_BLOB_SIZE
  {
  }

  /** Two signed transfers, of either instruction, have the same hash input only if they are the same transfer. */
  lemma SignedBytesDetermineTransfer(m: bool, events: seq<Event>, s: State, n: bool, others: seq<Event>, t: State)
    requires Run(m, events) == Some(s) && s.screen.SignScreen?
    requires Run(n, others) == Some(t) && t.screen.SignScreen?
    requires s.hash == t.hash
    ensures s.start == t.start && s.to == t.to && s.shown == t.shown && s.withMemo == t.withMemo && (s.withMemo ==> s.memo == t.memo)
  {
    hide Run, PairBytes, ToBe, Count, ParseBlob, MemoPart;
    SignedScheduleIsComplete(s, m, events);
    SignedScheduleIsComplete(t, n, others);
    SignedIsOpened(s);
    SignedIsOpened(t);
    var x, y := Count(s.declared) + PairBytes(s.shown), Count(t.declared) + PairBytes(t.shown);
    assert s.hash == s.start + (s.to + (MemoPart(s) + x)) by { HashInParts(s, x); }
    assert t.hash == t.start + (t.to + (MemoPart(t) + y)) by { HashInParts(t, y); }
    SplitAt(s.start, t.start, s.to + (MemoPart(s) + x), t.to + (MemoPart(t) + y));
    SplitAt(s.to, t.to, MemoPart(s) + x, MemoPart(t) + y);
    if s.withMemo {
      AcceptedMemoIsShort(s.memo);
      AcceptedMemoIsShort(t.memo);
      SplitMemo(s, t, x, y);
    } else {
      SplitMemo(s.(memo := []), t.(memo := []), x, y) by { NoMemo(s); NoMemo(t); }
    }
    assert |Count(s.declared)| == |Count(t.declared)|;
    SplitAt(Count(s.declared), Count(t.declared), PairBytes(s.shown), PairBytes(t.shown));
    PairBytesInjective(s.shown, t.shown);
  }

  lemma NoMemo(s: State)
    requires !s.withMemo
    ensures MemoPart(s) == [] == MemoPart(s.(memo := []))
  {
  }

  lemma SignedIsOpened(s: State)
    requires Inv(s) && s.screen.SignScreen?
    ensures Opened(s)
  {
  }

  lemma HashInParts(s: State, x: seq<byte>)
    requires s.hash == s.start + s.to + (if s.withMemo then ToBe(|s.memo|, 2) + s.memo else [])
                       + Count(s.declared) + PairBytes(s.shown)
    requires x == Count(s.declared) + PairBytes(s.shown)
    ensures s.hash == s.start + (s.to + (MemoPart(s) + x))
  {
    hide ToBe, Count, PairBytes;
  }
}
