/** Whole runs of an update-credentials transaction: what is signed, that it ends, and that it can be signed. */
module CredentialRuns {
  import opened Bytes
  import opened CredentialFlow
  import opened CredentialGrammar
  import opened DerivationPath
  import opened Options
  import opened Status
  import opened TxHash

  /** Where the events of one flow lead, if all of them can happen and are accepted. */
  function Run(events: seq<Event>): Option<State> {
    if events == [] then Some(START)
    else
      match Run(events[..|events| - 1])
      case None => None
      case Some(s) =>
        var e := events[|events| - 1];
        if Possible(s, e) && Step(s, e).reply.Open() then Some(Step(s, e).next) else None
  }

  lemma StepKeepsInv(s: State, e: Event)
    requires Inv(s) && Possible(s, e)
    ensures Step(s, e).reply.Open() ==> Inv(Step(s, e).next)
  {
    hide Inv, Packet, Approve;
    match e
    case Send(p1, p2, cdata) => PacketKeepsInv(s, p1, p2, cdata);
    case Accept => ApprovalsSucceed(s);
  }

  lemma StartInv()
    ensures Inv(START)
  {
  }

  /** Every state of every run satisfies the invariant. */
  lemma {:induction false} RunsKeepInv(events: seq<Event>)
    ensures Run(events).Some? ==> Inv(Run(events).value)
    decreases |events|
  {
    hide Inv, Step, Possible;
    if events == [] {
      StartInv();
    } else {
      RunsKeepInv(events[..|events| - 1]);
      var before := Run(events[..|events| - 1]);
      if before.Some? && Possible(before.value, events[|events| - 1]) {
        StepKeepsInv(before.value, events[|events| - 1]);
      }
    }
  }

  /** What a flow at its signing screen has received. */
  function UpdateOf(s: State): Update {
    Update(s.added, s.removed, s.threshold)
  }

  /**
   At the signing screen the hash has absorbed the header, the kind and the payload of one valid
   update, which is the only one with these bytes; and the user has accepted exactly its screens,
   every added credential and every revealed attribute once, in order.
   */
  lemma SignedUpdateIsReviewed(s: State, events: seq<Event>)
    requires Run(events) == Some(s) && s.pending.SignUp?
    ensures ValidUpdate(UpdateOf(s)) && s.hash == s.head + Payload(UpdateOf(s)) && s.accepted == Screens(UpdateOf(s))
  {
    hide Run, Inv;
    RunsKeepInv(events);
    SignedState(s);
  }

  /** A count of zero keys or revokers was declared. */
  predicate DeclaredZero(s: State) {
    (s.phase.Keys? && s.keysLeft == 0) || (s.phase.Revokers? && s.revokersLeft == 0)
  }

  lemma ZeroCountsAreStuck(s: State, e: Event)
    requires Inv(s) && DeclaredZero(s)
    ensures !(Possible(s, e) && Step(s, e).reply.Open())
  {
  }

  /**
   A flow that declares zero keys or zero revokers goes no further: no run continues from there,
   so none of its states, before or after, belongs to a run that reaches the signing screen.
   */
  lemma {:induction false} ZeroCountsNeverSign(events: seq<Event>, n: nat)
    requires n <= |events| && Run(events).Some? && Run(events[..n]).Some? && DeclaredZero(Run(events[..n]).value)
    ensures n == |events| && !Run(events).value.pending.SignUp?
    decreases |events|
  {
    hide Inv, Step;
    RunsKeepInv(events[..n]);
    if n == |events| {
      assert events[..n] == events;
      ZeroIsNoSigning(Run(events).value);
    } else {
      var init := events[..|events| - 1];
      assert init[..n] == events[..n];
      ZeroCountsNeverSign(init, n);
      assert init == events[..n];
      ZeroCountsAreStuck(Run(init).value, events[|events| - 1]);
    }
  }

  lemma ZeroIsNoSigning(s: State)
    requires Inv(s) && DeclaredZero(s)
    ensures !s.pending.SignUp?
  {
  }

  // ---- Every accepted event brings the end closer ----

  /** Credentials left, then stages left, then what is left of the stage. */
  function Measure(s: State): (nat, nat, nat) {
    (if s.phase.Start? then 256 else s.credentialsLeft, 12 - Rank(s.phase), WithinStage(s))
  }

  function WithinStage(s: State): nat {
    var up := if s.pending.Nothing? then 0 else 1;
    match s.phase
    case Keys => 2 * s.keysLeft + up
    case Revokers => s.revokersLeft
    case Tag => 3 * s.attributesLeft + 2
    case Value => 3 * s.attributesLeft + 1 - up
    case Proofs => if s.pending.AddedUp? then 0 else s.proofLeft + 1
    case Ids => 2 * s.idsLeft + up
    case Threshold => if s.pending.SignUp? then 0 else 1 + up
    case _ => up
  }

  predicate Less(a: (nat, nat, nat), b: (nat, nat, nat)) {
    a.0 < b.0 || (a.0 == b.0 && (a.1 < b.1 || (a.1 == b.1 && a.2 < b.2)))
  }

  lemma EveryStepDecreases(s: State, e: Event)
    requires Inv(s) && Possible(s, e) && Step(s, e).reply.Open()
    ensures Less(Measure(Step(s, e).next), Measure(s))
  {
    hide Transcript, Accepted, StartTransaction, Provider, DisplayableText, ValidCredentials, Sizes, ValidAttributes, FromBe;
    match e
    case Send(p1, p2, cdata) => PacketDecreases(s, p1, p2, cdata);
    case Accept =>
  }

  lemma PacketDecreases(s: State, p1: uint8, p2: uint8, cdata: Data)
    requires Inv(s) && s.pending.Nothing? && Packet(s, p1, p2, cdata).reply.Open()
    ensures Less(Measure(Packet(s, p1, p2, cdata).next), Measure(s))
  {
    hide Transcript, Accepted, StartTransaction, Provider, DisplayableText, ValidCredentials, Sizes, ValidAttributes, FromBe;
  }

  // ---- Every valid update can be signed ----

  datatype Apdu = Apdu(p1: uint8, p2: uint8, cdata: Data)

  /** Send the packets one by one, accepting every review before the signing screen. */
  function Drive(s: State, packets: seq<Apdu>): Option<State>
    decreases |packets|
  {
    if packets == [] then Some(s)
    else
      var p := packets[0];
      var r := Packet(s, p.p1, p.p2, p.cdata);
      if !s.pending.Nothing? || !r.reply.Open() then None
      else if r.reply.Continue? then
        var a := Approve(r.next);
        if a.reply.Open() then Drive(a.next, packets[1..]) else None
      else Drive(r.next, packets[1..])
  }

  /** The state after a packet, and after its review if it has one. */
  function After(s: State, p: Apdu): State {
    var r := Packet(s, p.p1, p.p2, p.cdata);
    if r.reply.Continue? then Approve(r.next).next else r.next
  }

  lemma Sent(s: State, p: Apdu, rest: seq<Apdu>)
    requires Inv(s) && s.pending.Nothing?
    requires var r := Packet(s, p.p1, p.p2, p.cdata);
      r.reply.Open() && (r.reply.Continue? <==> !r.next.pending.Nothing? && !r.next.pending.SignUp?)
    ensures Inv(After(s, p)) && Drive(s, [p] + rest) == Drive(After(s, p), rest)
  {
    hide Inv, Packet, Approve;
    PacketKeepsInv(s, p.p1, p.p2, p.cdata);
    var r := Packet(s, p.p1, p.p2, p.cdata);
    if r.reply.Continue? {
      ApprovalsSucceed(r.next);
    }
    assert ([p] + rest)[1..] == rest;
  }

  /** Two states of the same credential: nothing of the outer flow has changed. */
  predicate SameOuter(s: State, t: State) {
    && s.path == t.path && s.head == t.head && s.added == t.added && s.credentialsLeft == t.credentialsLeft
    && s.removed == t.removed && t.pending.Nothing?
  }

  function KeyPackets(keys: seq<seq<byte>>): (r: seq<Apdu>)
    requires Sizes(keys, KEY_SIZE)
  {
    if keys == [] then [] else [Apdu(1, 2, keys[0])] + KeyPackets(keys[1..])
  }

  lemma KeyPacketsParts(keys: seq<seq<byte>>, rest: seq<Apdu>)
    requires keys != [] && Sizes(keys, KEY_SIZE)
    ensures |keys[0]| == KEY_SIZE && Sizes(keys[1..], KEY_SIZE)
    ensures KeyPackets(keys) + rest == [Apdu(1, 2, keys[0])] + (KeyPackets(keys[1..]) + rest)
    ensures |keys| == 1 ==> KeyPackets(keys[1..]) + rest == rest
  {
  }

  lemma KeyRun(s: State, key: seq<byte>, rest: seq<Apdu>) returns (t: State)
    requires Inv(s) && s.pending.Nothing? && s.phase.Keys? && s.keysLeft > 0 && |key| == KEY_SIZE
    ensures Inv(t) && SameOuter(s, t)
    ensures t.keysLeft == s.keysLeft - 1 && t.phase == if s.keysLeft == 1 then Details else Keys
    ensures t.draft == s.draft.(keys := s.draft.keys + [key])
    ensures Drive(s, [Apdu(1, 2, key)] + rest) == Drive(t, rest)
  {
    hide Inv, Drive, FromBe;
    assert key[..KEY_SIZE] == key;
    Sent(s, Apdu(1, 2, key), rest);
    t := After(s, Apdu(1, 2, key));
  }

  lemma {:induction false} KeysRun(s: State, keys: seq<seq<byte>>, rest: seq<Apdu>) returns (t: State)
    requires Inv(s) && s.pending.Nothing? && s.phase.Keys? && keys != [] && s.keysLeft == |keys| && Sizes(keys, KEY_SIZE)
    ensures Inv(t) && SameOuter(s, t) && t.phase.Details?
    ensures t.draft == s.draft.(keys := s.draft.keys + keys)
    ensures Drive(s, KeyPackets(keys) + rest) == Drive(t, rest)
    decreases |keys|
  {
    hide Inv, Drive, Sizes, KeyPackets;
    KeyPacketsParts(keys, rest);
    t := KeyRun(s, keys[0], KeyPackets(keys[1..]) + rest);
    assert s.draft.keys + [keys[0]] + keys[1..] == s.draft.keys + keys;
    if |keys| > 1 {
      t := KeysRun(t, keys[1..], rest);
    } else {
      assert [keys[0]] == keys;
    }
  }

  function RevokerPackets(revokers: seq<seq<byte>>): (r: seq<Apdu>)
    requires Sizes(revokers, AR_SIZE)
  {
    if revokers == [] then [] else [Apdu(3, 2, revokers[0])] + RevokerPackets(revokers[1..])
  }

  lemma RevokerPacketsParts(revokers: seq<seq<byte>>, rest: seq<Apdu>)
    requires revokers != [] && Sizes(revokers, AR_SIZE)
    ensures |revokers[0]| == AR_SIZE && Sizes(revokers[1..], AR_SIZE)
    ensures RevokerPackets(revokers) + rest == [Apdu(3, 2, revokers[0])] + (RevokerPackets(revokers[1..]) + rest)
    ensures |revokers| == 1 ==> RevokerPackets(revokers[1..]) + rest == rest
  {
  }

  lemma RevokerRun(s: State, revoker: seq<byte>, rest: seq<Apdu>) returns (t: State)
    requires Inv(s) && s.pending.Nothing? && s.phase.Revokers? && s.revokersLeft > 0 && |revoker| == AR_SIZE
    ensures Inv(t) && SameOuter(s, t)
    ensures t.revokersLeft == s.revokersLeft - 1 && t.phase == if s.revokersLeft == 1 then Dates else Revokers
    ensures t.draft == s.draft.(revokers := s.draft.revokers + [revoker])
    ensures Drive(s, [Apdu(3, 2, revoker)] + rest) == Drive(t, rest)
  {
    hide Inv, Drive, FromBe;
    assert revoker[..AR_SIZE] == revoker;
    Sent(s, Apdu(3, 2, revoker), rest);
    t := After(s, Apdu(3, 2, revoker));
  }

  lemma {:induction false} RevokersRun(s: State, revokers: seq<seq<byte>>, rest: seq<Apdu>) returns (t: State)
    requires Inv(s) && s.pending.Nothing? && s.phase.Revokers? && revokers != [] && s.revokersLeft == |revokers| && Sizes(revokers, AR_SIZE)
    ensures Inv(t) && SameOuter(s, t) && t.phase.Dates?
    ensures t.draft == s.draft.(revokers := s.draft.revokers + revokers)
    ensures Drive(s, RevokerPackets(revokers) + rest) == Drive(t, rest)
    decreases |revokers|
  {
    hide Inv, Drive, Sizes, RevokerPackets;
    RevokerPacketsParts(revokers, rest);
    t := RevokerRun(s, revokers[0], RevokerPackets(revokers[1..]) + rest);
    assert s.draft.revokers + [revokers[0]] + revokers[1..] == s.draft.revokers + revokers;
    if |revokers| > 1 {
      t := RevokersRun(t, revokers[1..], rest);
    } else {
      assert [revokers[0]] == revokers;
    }
  }

  /** A packet cannot be empty, so one that carries nothing holds a byte that is ignored. */
  function Filled(s: seq<byte>): (c: Data)
    requires |s| <= UINT8_MAX
    ensures s <= c
  {
    if s == [] then [0] else s
  }

  function AttributePackets(attributes: seq<Attribute>): (r: seq<Apdu>)
    requires ValidAttributes(attributes)
  {
    if attributes == [] then []
    else
      var a := attributes[0];
      [Apdu(5, 2, [a.tag, |a.value|]), Apdu(6, 2, Filled(a.value))] + AttributePackets(attributes[1..])
  }

  /** One attribute: its tag, its value, and the user's acceptance. */
  lemma AttributeRun(s: State, a: Attribute, rest: seq<Apdu>) returns (t: State)
    requires Inv(s) && s.pending.Nothing? && s.phase.Tag? && s.attributesLeft > 0 && ValidAttribute(a)
    ensures Inv(t) && SameOuter(s, t) && t.attributesLeft == s.attributesLeft - 1
    ensures t.phase == if s.attributesLeft == 1 then ProofLength else Tag
    ensures t.draft == s.draft.(attributes := s.draft.attributes + [a])
    ensures Drive(s, [Apdu(5, 2, [a.tag, |a.value|]), Apdu(6, 2, Filled(a.value))] + rest) == Drive(t, rest)
  {
    hide Inv, Drive, DisplayableText;
    var tag, value := Apdu(5, 2, [a.tag, |a.value|]), Apdu(6, 2, Filled(a.value));
    assert [tag, value] + rest == [tag] + ([value] + rest);
    Sent(s, tag, [value] + rest);
    var m := After(s, tag);
    assert value.cdata[..|a.value|] == a.value;
    Sent(m, value, rest);
    t := After(m, value);
  }

  lemma ValueFits(a: Attribute)
    requires ValidAttribute(a)
    ensures |a.value| <= UINT8_MAX
  {
  }

  lemma AttributePacketsParts(attributes: seq<Attribute>, rest: seq<Apdu>)
    requires attributes != [] && ValidAttributes(attributes)
    ensures ValidAttribute(attributes[0]) && ValidAttributes(attributes[1..])
    ensures var a := attributes[0];
      AttributePackets(attributes) + rest
      == [Apdu(5, 2, [a.tag, |a.value|]), Apdu(6, 2, Filled(a.value))] + (AttributePackets(attributes[1..]) + rest)
    ensures |attributes| == 1 ==> AttributePackets(attributes[1..]) + rest == rest
  {
    ValueFits(attributes[0]);
  }

  lemma {:induction false} AttributesRun(s: State, attributes: seq<Attribute>, rest: seq<Apdu>) returns (t: State)
    requires Inv(s) && s.pending.Nothing? && s.phase.Tag? && attributes != [] && s.attributesLeft == |attributes|
    requires ValidAttributes(attributes)
    ensures Inv(t) && SameOuter(s, t) && t.phase.ProofLength?
    ensures t.draft == s.draft.(attributes := s.draft.attributes + attributes)
    ensures Drive(s, AttributePackets(attributes) + rest) == Drive(t, rest)
    decreases |attributes|
  {
    hide Inv, Drive, ValidAttribute;
    var a := attributes[0];
    assert ValidAttribute(a) && ValidAttributes(attributes[1..]);
    AttributePacketsParts(attributes, rest);
    hide AttributePackets;
    t := AttributeRun(s, a, AttributePackets(attributes[1..]) + rest);
    if |attributes| > 1 {
      assert s.draft.attributes + [a] + attributes[1..] == s.draft.attributes + attributes;
      t := AttributesRun(t, attributes[1..], rest);
    } else {
      assert [a] == attributes;
    }
  }

  function ProofPackets(proofs: seq<byte>): (r: seq<Apdu>) {
    if |proofs| > MAX_CDATA_LENGTH then [Apdu(8, 2, proofs[..MAX_CDATA_LENGTH])] + ProofPackets(proofs[MAX_CDATA_LENGTH..])
    else [Apdu(8, 2, Filled(proofs))]
  }

  /** The proofs, and the user's acceptance of the credential. */
  lemma {:induction false} ProofsRun(s: State, proofs: seq<byte>, rest: seq<Apdu>) returns (t: State)
    requires Inv(s) && s.pending.Nothing? && s.phase.Proofs? && s.proofLeft == |proofs| && s.credentialsLeft > 0
    ensures Inv(t) && t.pending.Nothing? && t.phase == if s.credentialsLeft == 1 then IdCount else Index
    ensures t.path == s.path && t.head == s.head && t.removed == s.removed && t.credentialsLeft == s.credentialsLeft - 1
    ensures t.added == s.added + [s.draft.(proofs := s.draft.proofs + proofs)]
    ensures Drive(s, ProofPackets(proofs) + rest) == Drive(t, rest)
    decreases |proofs|
  {
    hide Inv, Drive;
    if |proofs| > MAX_CDATA_LENGTH {
      var p := Apdu(8, 2, proofs[..MAX_CDATA_LENGTH]);
      var more := proofs[MAX_CDATA_LENGTH..];
      assert ProofPackets(proofs) + rest == [p] + (ProofPackets(more) + rest);
      assert p.cdata[..MAX_CDATA_LENGTH] == p.cdata;
      Sent(s, p, ProofPackets(more) + rest);
      t := After(s, p);
      assert s.draft.proofs + p.cdata + more == s.draft.proofs + proofs;
      t := ProofsRun(t, more, rest);
    } else {
      var p := Apdu(8, 2, Filled(proofs));
      assert p.cdata[..|proofs|] == proofs;
      Sent(s, p, rest);
      t := After(s, p);
    }
  }

  // ---- A credential ----

  function CredentialPackets(c: Credential): seq<Apdu>
    requires ValidCredential(c)
  {
    [Apdu(0, 1, [c.index]), Apdu(0x0A, 2, [|c.keys|])] + KeyPackets(c.keys) + AfterKeyPackets(c)
  }

  function AfterKeyPackets(c: Credential): seq<Apdu>
    requires ValidCredential(c)
  {
    [Apdu(2, 2, c.details + ToBe(|c.revokers|, 2))] + RevokerPackets(c.revokers) + AfterRevokerPackets(c)
  }

  function AfterRevokerPackets(c: Credential): seq<Apdu>
    requires ValidCredential(c)
  {
    [Apdu(4, 2, c.dates + ToBe(|c.attributes|, 2))] + AttributePackets(c.attributes)
    + ([Apdu(7, 2, ToBe(|c.proofs|, 4))] + ProofPackets(c.proofs))
  }

  lemma Regroup<T>(a: seq<T>, b: seq<T>, c: seq<T>, d: seq<T>)
    ensures a + b + c + d == a + (b + (c + d))
  {
  }

  lemma DatesStep(s: State, dates: seq<byte>, n: nat, rest: seq<Apdu>) returns (t: State)
    requires Inv(s) && s.pending.Nothing? && s.phase.Dates? && |dates| == DATES_SIZE && n <= UINT16_MAX
    ensures Inv(t) && SameOuter(s, t) && t.phase == (if n == 0 then ProofLength else Tag) && t.attributesLeft == n
    ensures t.draft == s.draft.(dates := dates)
    ensures Drive(s, [Apdu(4, 2, dates + ToBe(n, 2))] + rest) == Drive(t, rest)
  {
    hide Inv, Drive, FromBe, ToBe;
    var p := Apdu(4, 2, dates + ToBe(n, 2));
    Pow256Values();
    FromBeToBe(n, 2);
    assert p.cdata[..6] == dates && p.cdata[6..8] == ToBe(n, 2);
    Sent(s, p, rest);
    t := After(s, p);
  }

  /** From the dates to the end of the attributes. */
  lemma DatesRun(s: State, dates: seq<byte>, attributes: seq<Attribute>, rest: seq<Apdu>) returns (t: State)
    requires Inv(s) && s.pending.Nothing? && s.phase.Dates? && |dates| == DATES_SIZE
    requires |attributes| <= UINT16_MAX && ValidAttributes(attributes)
    ensures Inv(t) && SameOuter(s, t) && t.phase.ProofLength?
    ensures t.draft == s.draft.(dates := dates, attributes := attributes)
    ensures Drive(s, [Apdu(4, 2, dates + ToBe(|attributes|, 2))] + (AttributePackets(attributes) + rest)) == Drive(t, rest)
  {
    hide Inv, Drive, FromBe, ToBe, ValidAttributes;
    NothingYet(s);
    t := DatesStep(s, dates, |attributes|, AttributePackets(attributes) + rest);
    if attributes == [] {
      assert AttributePackets(attributes) + rest == rest;
    } else {
      assert [] + attributes == attributes;
      t := AttributesRun(t, attributes, rest);
    }
  }

  lemma NothingYet(s: State)
    requires Inv(s)
    ensures s.phase.Dates? ==> s.draft.attributes == [] && s.draft.proofs == []
    ensures s.phase.Details? ==> s.draft.revokers == [] && s.draft.attributes == [] && s.draft.proofs == []
    ensures s.phase.ProofLength? ==> s.draft.proofs == [] && s.credentialsLeft > 0
    ensures s.phase.Index? ==> s.credentialsLeft > 0
    ensures s.phase.IdCount? ==> s.credentialsLeft == 0 && s.removed == []
  {
  }

  lemma ProofLengthRun(s: State, proofs: seq<byte>, rest: seq<Apdu>) returns (t: State)
    requires Inv(s) && s.pending.Nothing? && s.phase.ProofLength? && |proofs| <= UINT32_MAX
    ensures Inv(t) && t.pending.Nothing? && t.phase == if s.credentialsLeft == 1 then IdCount else Index
    ensures t.path == s.path && t.head == s.head && t.removed == s.removed && t.credentialsLeft == s.credentialsLeft - 1
    ensures t.added == s.added + [s.draft.(proofs := proofs)]
    ensures Drive(s, [Apdu(7, 2, ToBe(|proofs|, 4))] + (ProofPackets(proofs) + rest)) == Drive(t, rest)
  {
    hide Inv, Drive, FromBe, ToBe;
    NothingYet(s);
    var p := Apdu(7, 2, ToBe(|proofs|, 4));
    Pow256Values();
    FromBeToBe(|proofs|, 4);
    assert p.cdata[..4] == p.cdata;
    Sent(s, p, ProofPackets(proofs) + rest);
    var m := After(s, p);
    assert [] + proofs == proofs;
    t := ProofsRun(m, proofs, rest);
  }

  lemma DetailsStep(s: State, details: seq<byte>, n: nat, rest: seq<Apdu>) returns (t: State)
    requires Inv(s) && s.pending.Nothing? && s.phase.Details? && n <= UINT16_MAX
    requires |details| == DETAILS_SIZE && Provider(details) < MAX_PROVIDER
    ensures Inv(t) && SameOuter(s, t) && t.phase.Revokers? && t.revokersLeft == n && t.draft == s.draft.(details := details)
    ensures Drive(s, [Apdu(2, 2, details + ToBe(n, 2))] + rest) == Drive(t, rest)
  {
    hide Inv, Drive, FromBe, ToBe;
    LeftoversAreImpossible(s);
    var p := Apdu(2, 2, details + ToBe(n, 2));
    Pow256Values();
    FromBeToBe(n, 2);
    assert p.cdata[..54] == details && p.cdata[54..56] == ToBe(n, 2);
    assert p.cdata[49..53] == details[49..53];
    Sent(s, p, rest);
    t := After(s, p);
  }

  /** From the details to the end of the revokers. */
  lemma DetailsRun(s: State, details: seq<byte>, revokers: seq<seq<byte>>, rest: seq<Apdu>) returns (t: State)
    requires Inv(s) && s.pending.Nothing? && s.phase.Details? && |details| == DETAILS_SIZE && Provider(details) < MAX_PROVIDER
    requires 1 <= |revokers| <= UINT16_MAX && Sizes(revokers, AR_SIZE)
    ensures Inv(t) && SameOuter(s, t) && t.phase.Dates?
    ensures t.draft == s.draft.(details := details, revokers := revokers)
    ensures Drive(s, [Apdu(2, 2, details + ToBe(|revokers|, 2))] + (RevokerPackets(revokers) + rest)) == Drive(t, rest)
  {
    hide Inv, Drive, FromBe, ToBe, Sizes;
    NothingYet(s);
    var m := DetailsStep(s, details, |revokers|, RevokerPackets(revokers) + rest);
    assert [] + revokers == revokers;
    t := RevokersRun(m, revokers, rest);
  }

  /** The index, the key count and the keys. */
  lemma KeyCountRun(s: State, c: Credential, rest: seq<Apdu>) returns (t: State)
    requires Inv(s) && s.pending.Nothing? && s.phase.Index? && ValidCredential(c)
    ensures Inv(t) && SameOuter(s, t) && t.phase.Details? && t.draft == NO_CREDENTIAL.(index := c.index, keys := c.keys)
    ensures Drive(s, [Apdu(0, 1, [c.index]), Apdu(0x0A, 2, [|c.keys|])] + (KeyPackets(c.keys) + rest)) == Drive(t, rest)
  {
    hide Inv, Drive, FromBe, ToBe, Sizes, ValidAttributes;
    var index, count := Apdu(0, 1, [c.index]), Apdu(0x0A, 2, [|c.keys|]);
    var more := KeyPackets(c.keys) + rest;
    assert [index, count] + more == [index] + ([count] + more);
    Sent(s, index, [count] + more);
    var m := After(s, index);
    Sent(m, count, more);
    assert [] + c.keys == c.keys;
    t := KeysRun(After(m, count), c.keys, rest);
  }

  /** A whole credential, from its index to its acceptance. */
  lemma CredentialRun(s: State, c: Credential, rest: seq<Apdu>) returns (t: State)
    requires Inv(s) && s.pending.Nothing? && s.phase.Index? && ValidCredential(c)
    ensures Inv(t) && t.pending.Nothing? && t.phase == if s.credentialsLeft == 1 then IdCount else Index
    ensures t.path == s.path && t.head == s.head && t.removed == s.removed && t.credentialsLeft == s.credentialsLeft - 1
    ensures t.added == s.added + [c]
    ensures Drive(s, CredentialPackets(c) + rest) == Drive(t, rest)
  {
    hide Inv, Drive, FromBe, ToBe, Sizes, ValidAttributes, KeyPackets, RevokerPackets, AttributePackets, ProofPackets;
    NothingYet(s);
    var last := [Apdu(7, 2, ToBe(|c.proofs|, 4))] + (ProofPackets(c.proofs) + rest);
    var dates := [Apdu(4, 2, c.dates + ToBe(|c.attributes|, 2))] + (AttributePackets(c.attributes) + last);
    var details := [Apdu(2, 2, c.details + ToBe(|c.revokers|, 2))] + (RevokerPackets(c.revokers) + dates);
    assert AfterRevokerPackets(c) + rest == dates;
    Regroup([Apdu(2, 2, c.details + ToBe(|c.revokers|, 2))], RevokerPackets(c.revokers), AfterRevokerPackets(c), rest);
    assert AfterKeyPackets(c) + rest == details;
    Regroup([Apdu(0, 1, [c.index]), Apdu(0x0A, 2, [|c.keys|])], KeyPackets(c.keys), AfterKeyPackets(c), rest);
    t := KeyCountRun(s, c, details);
    t := DetailsRun(t, c.details, c.revokers, dates);
    t := DatesRun(t, c.dates, c.attributes, last);
    t := ProofLengthRun(t, c.proofs, rest);
  }

  function CredentialsPackets(cs: seq<Credential>): seq<Apdu>
    requires ValidCredentials(cs)
  {
    if cs == [] then [] else CredentialPackets(cs[0]) + CredentialsPackets(cs[1..])
  }

  lemma {:induction false} CredentialsRun(s: State, cs: seq<Credential>, rest: seq<Apdu>) returns (t: State)
    requires Inv(s) && s.pending.Nothing? && s.phase.Index? && cs != [] && s.credentialsLeft == |cs| && ValidCredentials(cs)
    ensures Inv(t) && t.pending.Nothing? && t.phase.IdCount?
    ensures t.path == s.path && t.head == s.head && t.removed == s.removed && t.added == s.added + cs
    ensures Drive(s, CredentialsPackets(cs) + rest) == Drive(t, rest)
    decreases |cs|
  {
    hide Inv, Drive, ValidCredential, CredentialPackets;
    assert ValidCredential(cs[0]);
    assert CredentialsPackets(cs) + rest == CredentialPackets(cs[0]) + (CredentialsPackets(cs[1..]) + rest);
    t := CredentialRun(s, cs[0], CredentialsPackets(cs[1..]) + rest);
    if |cs| > 1 {
      assert s.added + [cs[0]] + cs[1..] == s.added + cs;
      t := CredentialsRun(t, cs[1..], rest);
    } else {
      assert CredentialsPackets(cs[1..]) + rest == rest;
      assert [cs[0]] == cs;
    }
  }

  // ---- The rest of the outer flow ----

  function IdPackets(ids: seq<seq<byte>>): (r: seq<Apdu>)
    requires Sizes(ids, ID_SIZE)
  {
    if ids == [] then [] else [Apdu(0, 4, ids[0])] + IdPackets(ids[1..])
  }

  lemma IdPacketsParts(ids: seq<seq<byte>>, rest: seq<Apdu>)
    requires ids != [] && Sizes(ids, ID_SIZE)
    ensures |ids[0]| == ID_SIZE && Sizes(ids[1..], ID_SIZE)
    ensures IdPackets(ids) + rest == [Apdu(0, 4, ids[0])] + (IdPackets(ids[1..]) + rest)
    ensures |ids| == 1 ==> IdPackets(ids[1..]) + rest == rest
  {
  }

  lemma IdRun(s: State, id: seq<byte>, rest: seq<Apdu>) returns (t: State)
    requires Inv(s) && s.pending.Nothing? && s.phase.Ids? && s.idsLeft > 0 && |id| == ID_SIZE
    ensures Inv(t) && t.pending.Nothing? && t.path == s.path && t.head == s.head && t.added == s.added
    ensures t.idsLeft == s.idsLeft - 1 && t.phase == if s.idsLeft == 1 then Threshold else Ids
    ensures t.removed == s.removed + [id]
    ensures Drive(s, [Apdu(0, 4, id)] + rest) == Drive(t, rest)
  {
    hide Inv, Drive, FromBe;
    assert id[..ID_SIZE] == id;
    Sent(s, Apdu(0, 4, id), rest);
    t := After(s, Apdu(0, 4, id));
  }

  lemma {:induction false} IdsRun(s: State, ids: seq<seq<byte>>, rest: seq<Apdu>) returns (t: State)
    requires Inv(s) && s.pending.Nothing? && s.phase.Ids? && ids != [] && s.idsLeft == |ids| && Sizes(ids, ID_SIZE)
    ensures Inv(t) && t.pending.Nothing? && t.path == s.path && t.head == s.head && t.added == s.added && t.phase.Threshold?
    ensures t.removed == s.removed + ids
    ensures Drive(s, IdPackets(ids) + rest) == Drive(t, rest)
    decreases |ids|
  {
    hide Inv, Drive, Sizes, IdPackets;
    IdPacketsParts(ids, rest);
    t := IdRun(s, ids[0], IdPackets(ids[1..]) + rest);
    assert s.removed + [ids[0]] + ids[1..] == s.removed + ids;
    if |ids| > 1 {
      t := IdsRun(t, ids[1..], rest);
    } else {
      assert [ids[0]] == ids;
    }
  }

  /** The packets of an update behind the initial one. */
  function UpdatePackets(u: Update): seq<Apdu>
    requires ValidUpdate(u)
  {
    CredentialsPackets(u.added) + EndPackets(u)
  }

  function EndPackets(u: Update): seq<Apdu>
    requires ValidUpdate(u)
  {
    [Apdu(0, 3, [|u.removed|])] + (IdPackets(u.removed) + [Apdu(0, 5, [u.threshold])])
  }

  lemma IdCountRun(s: State, count: byte, rest: seq<Apdu>) returns (t: State)
    requires Inv(s) && s.pending.Nothing? && s.phase.IdCount?
    ensures Inv(t) && t.pending.Nothing? && t.phase == (if count == 0 then Threshold else Ids) && t.idsLeft == count
    ensures t.path == s.path && t.head == s.head && t.added == s.added && t.removed == []
    ensures Drive(s, [Apdu(0, 3, [count])] + rest) == Drive(t, rest)
  {
    hide Inv, Drive;
    NothingYet(s);
    Sent(s, Apdu(0, 3, [count]), rest);
    t := After(s, Apdu(0, 3, [count]));
  }

  lemma ThresholdRun(s: State, threshold: byte) returns (t: State)
    requires Inv(s) && s.pending.Nothing? && s.phase.Threshold?
    ensures Inv(t) && t.pending.SignUp? && t.path == s.path && t.head == s.head && t.added == s.added && t.removed == s.removed
    ensures t.threshold == threshold && Drive(s, [Apdu(0, 5, [threshold])]) == Some(t)
  {
    hide Inv, Drive;
    var p := Apdu(0, 5, [threshold]);
    Sent(s, p, []);
    assert [p] + [] == [p];
    t := After(s, p);
    DriveDone(t);
  }

  lemma EndRun(s: State, u: Update) returns (t: State)
    requires Inv(s) && s.pending.Nothing? && s.phase.IdCount? && ValidUpdate(u) && s.added == u.added
    ensures Inv(t) && t.pending.SignUp? && t.path == s.path && t.head == s.head && UpdateOf(t) == u
    ensures Drive(s, EndPackets(u)) == Some(t)
  {
    hide Inv, Drive, Sizes, ValidCredentials;
    var threshold := [Apdu(0, 5, [u.threshold])];
    var m := IdCountRun(s, |u.removed|, IdPackets(u.removed) + threshold);
    if u.removed == [] {
      assert IdPackets(u.removed) + threshold == threshold;
    } else {
      assert [] + u.removed == u.removed;
      m := IdsRun(m, u.removed, threshold);
    }
    t := ThresholdRun(m, u.threshold);
  }

  lemma DriveDone(s: State)
    ensures Drive(s, []) == Some(s)
  {
  }

  /**
   Every valid update whose initial packet is well formed reaches its signing screen, with exactly
   its payload hashed behind the header and exactly its screens accepted.
   */
  lemma EveryUpdateCanBeSigned(first: Data, u: Update)
    requires ValidUpdate(u)
    requires var start := StartTransaction(first, KIND_UPDATE_CREDENTIALS);
      start.Started? && start.rest != [] && start.rest[0] == |u.added|
    ensures var start := StartTransaction(first, KIND_UPDATE_CREDENTIALS);
      var end := Drive(START, [Apdu(0, 0, first)] + UpdatePackets(u));
      && end.Some? && end.value.pending.SignUp? && end.value.path == start.path
      && UpdateOf(end.value) == u
      && end.value.hash == start.transcript + Payload(u) && end.value.accepted == Screens(u)
  {
    hide Inv, Drive, StartTransaction, CredentialsPackets, EndPackets, Payload, Screens, ValidCredentials;
    var p, rest := Apdu(0, 0, first), UpdatePackets(u);
    StartInv();
    Sent(START, p, rest);
    var s := After(START, p);
    if u.added == [] {
      assert CredentialsPackets([]) == [] by { NoCredentials(); }
      assert [] + EndPackets(u) == EndPackets(u);
    } else {
      assert [] + u.added == u.added;
      s := CredentialsRun(s, u.added, EndPackets(u));
    }
    var t := EndRun(s, u);
    SignedState(t);
  }

  lemma NoCredentials()
    ensures CredentialsPackets([]) == []
  {
  }

  lemma SignedState(s: State)
    requires Inv(s) && s.pending.SignUp?
    ensures ValidUpdate(UpdateOf(s)) && s.hash == s.head + Payload(UpdateOf(s)) && s.accepted == Screens(UpdateOf(s))
  {
    hide CredentialsBytes, CredentialsScreens, ToBe, Flatten, Sizes, RemovedScreens;
    var u := UpdateOf(s);
    assert s.head + (ToBe(|s.added|, 1) + CredentialsBytes(s.added)) + (ToBe(|s.removed|, 1) + Flatten(s.removed)) + [s.threshold]
        == s.head + Payload(u);
  }

  // ---- The same runs, packet by packet and event by event ----

  /** The packets among the events. */
  function Sends(events: seq<Event>): seq<Apdu> {
    if events == [] then []
    else
      match events[|events| - 1]
      case Send(p1, p2, cdata) => Sends(events[..|events| - 1]) + [Apdu(p1, p2, cdata)]
      case Accept => Sends(events[..|events| - 1])
  }

  lemma SendsExtended(events: seq<Event>, p: Apdu)
    ensures Sends(events + [Send(p.p1, p.p2, p.cdata)]) == Sends(events) + [p] && Sends(events + [Accept]) == Sends(events)
    ensures Sends([]) == []
  {
    assert (events + [Accept])[..|events|] == events;
    assert (events + [Send(p.p1, p.p2, p.cdata)])[..|events|] == events;
  }

  /** The events of packets sent one by one, with every review before the signing screen accepted. */
  lemma {:induction false} DriveIsARun(events: seq<Event>, s: State, packets: seq<Apdu>, t: State) returns (more: seq<Event>)
    requires Run(events) == Some(s) && Drive(s, packets) == Some(t)
    ensures Run(more) == Some(t) && Sends(more) == Sends(events) + packets && events <= more
    decreases |packets|
  {
    hide Inv, Packet, Approve, Run, Sends;
    more := events;
    RunsKeepInv(events);
    if packets != [] {
      var p := packets[0];
      assert packets == [p] + packets[1..];
      SendsExtended(events, p);
      var e, r := Send(p.p1, p.p2, p.cdata), Packet(s, p.p1, p.p2, p.cdata);
      RunExtended(events, s, e, r.next);
      PacketKeepsInv(s, p.p1, p.p2, p.cdata);
      more := events + [e];
      var m := r.next;
      if r.reply.Continue? {
        ReviewIsUp(s, p);
        RunExtended(more, r.next, Accept, Approve(r.next).next);
        SendsExtended(more, p);
        more := more + [Accept];
        m := Approve(r.next).next;
      }
      RunsKeepInv(more);
      more := DriveIsARun(more, m, packets[1..], t);
    }
  }

  lemma RunExtended(events: seq<Event>, s: State, e: Event, t: State)
    requires Run(events) == Some(s) && Possible(s, e) && Step(s, e).reply.Open() && t == Step(s, e).next
    ensures Run(events + [e]) == Some(t)
  {
    assert (events + [e])[..|events|] == events;
  }

  lemma ReviewIsUp(s: State, p: Apdu)
    requires s.pending.Nothing? && Packet(s, p.p1, p.p2, p.cdata).reply.Continue?
    ensures !Packet(s, p.p1, p.p2, p.cdata).next.pending.Nothing? && !Packet(s, p.p1, p.p2, p.cdata).next.pending.SignUp?
    ensures Approve(Packet(s, p.p1, p.p2, p.cdata).next).next.pending.Nothing?
         || !Approve(Packet(s, p.p1, p.p2, p.cdata).next).reply.Open()
  {
  }

  /** Every valid update has a run, event by event, that ends at its signing screen. */
  lemma EveryUpdateHasARun(first: Data, u: Update) returns (events: seq<Event>, t: State)
    requires ValidUpdate(u)
    requires var start := StartTransaction(first, KIND_UPDATE_CREDENTIALS);
      start.Started? && start.rest != [] && start.rest[0] == |u.added|
    ensures Run(events) == Some(t) && t.pending.SignUp? && UpdateOf(t) == u
    ensures Sends(events) == [Apdu(0, 0, first)] + UpdatePackets(u) && events != [] && events[0].Send?
    ensures var start := StartTransaction(first, KIND_UPDATE_CREDENTIALS);
      t.path == start.path && t.hash == start.transcript + Payload(u) && t.accepted == Screens(u)
  {
    hide Drive, StartTransaction, Payload, Screens, ValidUpdate, UpdatePackets;
    EveryUpdateCanBeSigned(first, u);
    var packets := [Apdu(0, 0, first)] + UpdatePackets(u);
    t := Drive(START, packets).value;
    NothingSent();
    SendsExtended([], packets[0]);
    events := DriveIsARun([], START, packets, t);
    assert [] + packets == packets;
    SendComesFirst(events);
  }

  /** A flow begins with a packet. */
  lemma {:induction false} SendComesFirst(events: seq<Event>)
    requires Run(events).Some? && events != []
    ensures events[0].Send?
    decreases |events|
  {
    if |events| > 1 {
      SendComesFirst(events[..|events| - 1]);
    }
  }

  lemma NothingSent()
    ensures Run([]) == Some(START)
  {
  }

  /** How a step changes the added credentials: only the acceptance of one adds it. */
  lemma StepAdds(s: State, e: Event)
    ensures var t := Step(s, e).next;
      t.added == s.added || t.added == [] || (s.pending.AddedUp? && t.added == s.added + [s.draft])
  {
  }

  /** Every credential of a run was under review by itself at some point of it. */
  lemma {:induction false} EveryAddedWasReviewed(events: seq<Event>, i: nat) returns (k: nat)
    requires Run(events).Some? && i < |Run(events).value.added|
    ensures k < |events| && Run(events[..k]).Some?
    ensures var t, s := Run(events).value, Run(events[..k]).value;
      s.pending.AddedUp? && s.added == t.added[..i] && s.draft == t.added[i]
    decreases |events|
  {
    hide Step, Possible;
    var n := |events| - 1;
    var s, t := Run(events[..n]).value, Run(events).value;
    StepAdds(s, events[n]);
    if i < |s.added| {
      k := EveryAddedWasReviewed(events[..n], i);
      assert events[..n][..k] == events[..k];
      assert s.added[..i] == t.added[..i];
    } else {
      k := n;
      assert t.added[..i] == s.added;
    }
  }
}
