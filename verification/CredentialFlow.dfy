/**
 The packets and approvals of an update-credentials transaction, with the credential machine of
 src/handler/sign_credential_deployment.c nested in src/handler/sign_update_credential.c.
 */
module CredentialFlow {
  import opened Bytes
  import opened CredentialGrammar
  import opened DerivationPath
  import opened Status
  import opened TxHash

  const KIND_UPDATE_CREDENTIALS: byte := 20
  const MAX_CDATA_LENGTH := 255

  /** The states of the outer machine and, between `KeyCount` and `Proofs`, of the inner one. */
  datatype Phase =
    | Start | Index
    | KeyCount | Keys | Details | Revokers | Dates | Tag | Value | ProofLength | Proofs
    | IdCount | Ids | Threshold

  /** The review that waits for the user. */
  datatype Pending = Nothing | IntroUp | KeyUp | AttributeUp | AddedUp | IdUp | SignUp

  /**
   The counters of the context, the hash, and a record of what arrived: the credentials accepted
   so far, the one being received, the removed ids, and every screen the user accepted.
   */
  datatype State = State(
    phase: Phase, pending: Pending, path: Path, hash: seq<byte>,
    credentialsLeft: nat, keysLeft: nat, revokersLeft: nat, attributesLeft: nat, valueLength: nat, proofLeft: nat, idsLeft: nat,
    head: seq<byte>, added: seq<Credential>, draft: Credential, tag: byte, removed: seq<seq<byte>>, threshold: byte,
    accepted: seq<Screen>)

  const NO_CREDENTIAL := Credential(0, [], [], [], [], [], [])
  const START := State(Start, Nothing, Path([], Invalid), [], 0, 0, 0, 0, 0, 0, 0, [], [], NO_CREDENTIAL, 0, [], 0, [])

  datatype Result = Result(next: State, reply: Reply)

  // ---- The outer machine ----

  function TakeInitial(s: State, cdata: Data): Result {
    match StartTransaction(cdata, KIND_UPDATE_CREDENTIALS)
    case StartThrown(sw) => Result(s, Throw(sw))
    case Started(path, transcript, rest) =>
      if |rest| < 1 then Result(s, Throw(SWO_INCORRECT_DATA))
      else
        Result(START.(phase := if rest[0] == 0 then IdCount else Index, pending := IntroUp, path := path,
                      hash := transcript + [rest[0]], head := transcript, credentialsLeft := rest[0]), Continue)
  }

  function TakeIndex(s: State, cdata: Data): Result {
    Result(s.(phase := KeyCount, hash := s.hash + [cdata[0]], draft := NO_CREDENTIAL.(index := cdata[0])), Ack)
  }

  function TakeIdCount(s: State, cdata: Data): Result {
    Result(s.(phase := if cdata[0] == 0 then Threshold else Ids, hash := s.hash + [cdata[0]], idsLeft := cdata[0]), Ack)
  }

  function TakeId(s: State, cdata: Data): Result
    requires s.idsLeft > 0
  {
    if |cdata| < ID_SIZE then Result(s, Throw(SWO_INCORRECT_DATA))
    else
      Result(s.(phase := if s.idsLeft == 1 then Threshold else Ids, pending := IdUp, hash := s.hash + cdata[..ID_SIZE],
                idsLeft := s.idsLeft - 1, removed := s.removed + [cdata[..ID_SIZE]]), Continue)
  }

  function TakeThreshold(s: State, cdata: Data): Result {
    Result(s.(pending := SignUp, hash := s.hash + [cdata[0]], threshold := cdata[0]), Sign)
  }

  // ---- The inner machine ----

  function TakeKeyCount(s: State, cdata: Data): Result {
    Result(s.(phase := Keys, hash := s.hash + [cdata[0]], keysLeft := cdata[0]), Ack)
  }

  /** Every key but the last is reviewed as it arrives. */
  function TakeKey(s: State, cdata: Data): Result {
    if s.keysLeft == 0 then Result(s, Throw(ERROR_INVALID_STATE))
    else if |cdata| < KEY_SIZE then Result(s, Throw(SWO_INCORRECT_DATA))
    else
      var key := cdata[..KEY_SIZE];
      var s' := s.(hash := s.hash + key, keysLeft := s.keysLeft - 1, draft := s.draft.(keys := s.draft.keys + [key]));
      if s.keysLeft > 1 then Result(s'.(pending := KeyUp), Continue) else Result(s'.(phase := Details), Ack)
  }

  /** The identity provider is written into nine characters, so a tenth digit overflows. */
  function TakeDetails(s: State, cdata: Data): Result {
    if s.keysLeft != 0 then Result(s, Throw(ERROR_INVALID_STATE))
    else if |cdata| < 53 then Result(s, Throw(SWO_INCORRECT_DATA))
    else if Provider(cdata) >= MAX_PROVIDER then Result(s, Throw(ERROR_BUFFER_OVERFLOW))
    else if |cdata| < 56 then Result(s, Throw(SWO_INCORRECT_DATA))
    else
      Result(s.(phase := Revokers, hash := s.hash + cdata[..56], revokersLeft := FromBe(cdata[54..56]),
                draft := s.draft.(details := cdata[..54])), Ack)
  }

  function TakeRevoker(s: State, cdata: Data): Result {
    if s.revokersLeft == 0 then Result(s, Throw(ERROR_INVALID_STATE))
    else if |cdata| < AR_SIZE then Result(s, Throw(SWO_INCORRECT_DATA))
    else
      var revoker := cdata[..AR_SIZE];
      Result(s.(phase := if s.revokersLeft == 1 then Dates else Revokers, hash := s.hash + revoker,
                revokersLeft := s.revokersLeft - 1, draft := s.draft.(revokers := s.draft.revokers + [revoker])), Ack)
  }

  function TakeDates(s: State, cdata: Data): Result {
    if |cdata| < 8 then Result(s, Throw(SWO_INCORRECT_DATA))
    else
      var n := FromBe(cdata[6..8]);
      Result(s.(phase := if n == 0 then ProofLength else Tag, hash := s.hash + cdata[..8], attributesLeft := n,
                draft := s.draft.(dates := cdata[..6])), Ack)
  }

  function TakeTag(s: State, cdata: Data): Result {
    if s.attributesLeft == 0 then Result(s, Throw(ERROR_INVALID_STATE))
    else if |cdata| < 2 then Result(s, Throw(SWO_INCORRECT_DATA))
    else Result(s.(phase := Value, hash := s.hash + cdata[..2], tag := cdata[0], valueLength := cdata[1]), Ack)
  }

  function TakeValue(s: State, cdata: Data): Result {
    if |cdata| < s.valueLength then Result(s, Throw(SWO_INCORRECT_DATA))
    else if !DisplayableText(cdata[..s.valueLength]) then Result(s, Throw(ERROR_INVALID_TRANSACTION))
    else
      var value := cdata[..s.valueLength];
      Result(s.(pending := AttributeUp, hash := s.hash + value,
                draft := s.draft.(attributes := s.draft.attributes + [Attribute(s.tag, value)])), Continue)
  }

  function TakeProofLength(s: State, cdata: Data): Result {
    if |cdata| < 4 then Result(s, Throw(SWO_INCORRECT_DATA))
    else Result(s.(phase := Proofs, hash := s.hash + cdata[..4], proofLeft := FromBe(cdata[..4])), Ack)
  }

  /** Whole packets of 255 bytes, then the rest, and with it the review of the credential. */
  function TakeProofs(s: State, cdata: Data): Result {
    var n := if s.proofLeft > MAX_CDATA_LENGTH then MAX_CDATA_LENGTH else s.proofLeft;
    if |cdata| < n then Result(s, Throw(SWO_INCORRECT_DATA))
    else
      var s' := s.(hash := s.hash + cdata[..n], draft := s.draft.(proofs := s.draft.proofs + cdata[..n]));
      if s.proofLeft > MAX_CDATA_LENGTH then Result(s'.(proofLeft := s.proofLeft - n), Ack)
      else Result(s'.(pending := AddedUp), Continue)
  }

  /** handle_sign_credential_deployment, as the update reaches it. */
  function TakeInner(s: State, p1: uint8, cdata: Data): Result {
    match s.phase
    case KeyCount => if p1 == 0x0A then TakeKeyCount(s, cdata) else Result(s, Throw(ERROR_INVALID_STATE))
    case Keys => if p1 == 1 then TakeKey(s, cdata) else Result(s, Throw(ERROR_INVALID_STATE))
    case Details => if p1 == 2 then TakeDetails(s, cdata) else Result(s, Throw(ERROR_INVALID_STATE))
    case Revokers => if p1 == 3 then TakeRevoker(s, cdata) else Result(s, Throw(ERROR_INVALID_STATE))
    case Dates => if p1 == 4 then TakeDates(s, cdata) else Result(s, Throw(ERROR_INVALID_STATE))
    case Tag => if p1 == 5 then TakeTag(s, cdata) else Result(s, Throw(ERROR_INVALID_STATE))
    case Value => if p1 == 6 then TakeValue(s, cdata) else Result(s, Throw(ERROR_INVALID_STATE))
    case ProofLength => if p1 == 7 then TakeProofLength(s, cdata) else Result(s, Throw(ERROR_INVALID_STATE))
    case Proofs => if p1 == 8 then TakeProofs(s, cdata) else Result(s, Throw(ERROR_INVALID_STATE))
    case _ => Result(s, Throw(ERROR_INVALID_STATE))
  }

  /** handle_sign_update_credential; no packet is delivered while a review is up. */
  function Packet(s: State, p1: uint8, p2: uint8, cdata: Data): Result {
    match s.phase
    case Start => if p2 == 0 then TakeInitial(s, cdata) else Result(s, Throw(ERROR_INVALID_STATE))
    case Index => if p2 == 1 then TakeIndex(s, cdata) else Result(s, Throw(ERROR_INVALID_STATE))
    case IdCount => if p2 == 3 then TakeIdCount(s, cdata) else Result(s, Throw(ERROR_INVALID_STATE))
    case Ids => if p2 == 4 && s.idsLeft > 0 then TakeId(s, cdata) else Result(s, Throw(ERROR_INVALID_STATE))
    case Threshold => if p2 == 5 then TakeThreshold(s, cdata) else Result(s, Throw(ERROR_INVALID_STATE))
    case _ => if p2 == 2 then TakeInner(s, p1, cdata) else Result(s, Throw(ERROR_INVALID_STATE))
  }

  /** processNextVerificationKey, confirmAttribute, confirmAddedCredential and the plain continuations. */
  function Approve(s: State): Result {
    match s.pending
    case KeyUp =>
      if s.draft.keys == [] then Result(s, Throw(ERROR_INVALID_STATE))
      else Result(s.(phase := if s.keysLeft == 0 then Details else Keys, pending := Nothing,
                     accepted := s.accepted + [Key(s.draft.keys[|s.draft.keys| - 1])]), Ack)
    case AttributeUp =>
      if s.attributesLeft == 0 || s.draft.attributes == [] then Result(s, Throw(ERROR_INVALID_STATE))
      else Result(s.(phase := if s.attributesLeft == 1 then ProofLength else Tag, pending := Nothing,
                     attributesLeft := s.attributesLeft - 1,
                     accepted := s.accepted + [Revealed(s.draft.attributes[|s.draft.attributes| - 1])]), Ack)
    case AddedUp =>
      if s.credentialsLeft == 0 then Result(s, Throw(ERROR_INVALID_STATE))
      else Result(s.(phase := if s.credentialsLeft == 1 then IdCount else Index, pending := Nothing,
                     credentialsLeft := s.credentialsLeft - 1, added := s.added + [s.draft],
                     accepted := s.accepted + [Added(s.draft)]), Ack)
    case IdUp =>
      if s.removed == [] then Result(s, Throw(ERROR_INVALID_STATE))
      else Result(s.(pending := Nothing, accepted := s.accepted + [Removed(s.removed[|s.removed| - 1])]), Ack)
    case IntroUp => Result(s.(pending := Nothing, accepted := s.accepted + [Intro]), Ack)
    case _ => Result(s, Throw(ERROR_INVALID_STATE))
  }

  datatype Event = Send(p1: uint8, p2: uint8, cdata: Data) | Accept

  /** The host sends while no review is up; the user accepts a review that is not the last. */
  predicate Possible(s: State, e: Event) {
    if e.Send? then s.pending.Nothing? else !s.pending.Nothing? && !s.pending.SignUp?
  }

  function Step(s: State, e: Event): Result {
    match e
    case Send(p1, p2, cdata) => Packet(s, p1, p2, cdata)
    case Accept => Approve(s)
  }

  // ---- What the hash has absorbed, phase by phase ----

  function WithKeys(c: Credential, left: nat): seq<byte> {
    [c.index] + (ToBe(|c.keys| + left, 1) + Flatten(c.keys))
  }

  function WithRevokers(c: Credential, left: nat): seq<byte> {
    WithKeys(c, 0) + c.details + (ToBe(|c.revokers| + left, 2) + Flatten(c.revokers))
  }

  function WithAttributes(c: Credential, left: nat): seq<byte> {
    WithRevokers(c, 0) + c.dates + (ToBe(|c.attributes| + left, 2) + AttributesBytes(c.attributes))
  }

  function WithProofs(c: Credential, left: nat): seq<byte> {
    WithAttributes(c, 0) + (ToBe(|c.proofs| + left, 4) + c.proofs)
  }

  /** Of the credential under way. */
  function DraftBytes(s: State): seq<byte> {
    match s.phase
    case KeyCount => [s.draft.index]
    case Keys => WithKeys(s.draft, s.keysLeft)
    case Details => WithKeys(s.draft, 0)
    case Revokers => WithRevokers(s.draft, s.revokersLeft)
    case Dates => WithRevokers(s.draft, 0)
    case Tag => WithAttributes(s.draft, s.attributesLeft)
    case Value =>
      if s.pending.AttributeUp? then WithAttributes(s.draft, if s.attributesLeft > 0 then s.attributesLeft - 1 else 0)
      else WithAttributes(s.draft, s.attributesLeft) + [s.tag, s.valueLength % 256]
    case ProofLength => WithAttributes(s.draft, 0)
    case Proofs => WithProofs(s.draft, if s.pending.AddedUp? then 0 else s.proofLeft)
    case _ => []
  }

  function RemovedBytes(s: State): seq<byte> {
    ToBe(|s.removed| + s.idsLeft, 1) + Flatten(s.removed)
  }

  function Prefix(s: State): seq<byte> {
    s.head + (ToBe(|s.added| + s.credentialsLeft, 1) + CredentialsBytes(s.added))
  }

  function Transcript(s: State): seq<byte> {
    match s.phase
    case Start => []
    case Ids => Prefix(s) + RemovedBytes(s)
    case Threshold => Prefix(s) + RemovedBytes(s) + (if s.pending.SignUp? then [s.threshold] else [])
    case _ => Prefix(s) + DraftBytes(s)
  }

  // ---- What the user has accepted ----

  function Most<T>(s: seq<T>): seq<T> {
    if s == [] then [] else s[..|s| - 1]
  }

  /** Of the credential under way: its keys but the last, or but the one on screen, and its attributes. */
  function DraftScreens(s: State): seq<Screen> {
    match s.phase
    case Keys => KeyScreens(if s.pending.KeyUp? then Most(s.draft.keys) else s.draft.keys)
    case Details => KeyScreens(Most(s.draft.keys))
    case Revokers => KeyScreens(Most(s.draft.keys))
    case Dates => KeyScreens(Most(s.draft.keys))
    case Tag => KeyScreens(Most(s.draft.keys)) + RevealedScreens(s.draft.attributes)
    case Value =>
      KeyScreens(Most(s.draft.keys))
      + RevealedScreens(if s.pending.AttributeUp? then Most(s.draft.attributes) else s.draft.attributes)
    case ProofLength => KeyScreens(Most(s.draft.keys)) + RevealedScreens(s.draft.attributes)
    case Proofs => KeyScreens(Most(s.draft.keys)) + RevealedScreens(s.draft.attributes)
    case _ => []
  }

  function Accepted(s: State): seq<Screen>
    requires ValidCredentials(s.added)
  {
    if s.phase.Start? || s.pending.IntroUp? then []
    else
      var base := [Intro] + CredentialsScreens(s.added);
      if s.phase.Ids? || s.phase.Threshold? then
        base + RemovedScreens(if s.pending.IdUp? then Most(s.removed) else s.removed)
      else base + DraftScreens(s)
  }

  // ---- The invariant ----

  function Rank(p: Phase): nat {
    match p
    case Start => 0
    case Index => 1
    case KeyCount => 2
    case Keys => 3
    case Details => 4
    case Revokers => 5
    case Dates => 6
    case Tag => 7
    case Value => 7
    case ProofLength => 8
    case Proofs => 9
    case IdCount => 10
    case Ids => 11
    case Threshold => 12
  }

  /** Which reviews can be up in which phase. */
  predicate Fits(s: State) {
    match s.pending
    case Nothing => true
    case IntroUp => (s.phase.Index? || s.phase.IdCount?) && s.added == []
    case KeyUp => s.phase.Keys? && s.draft.keys != [] && s.keysLeft > 0
    case AttributeUp => s.phase.Value? && s.draft.attributes != []
    case AddedUp => s.phase.Proofs?
    case IdUp => (s.phase.Ids? || s.phase.Threshold?) && s.removed != []
    case SignUp => s.phase.Threshold?
  }

  /** The parts of the credential under way that have arrived are well formed. */
  predicate DraftFits(s: State) {
    var c, r := s.draft, Rank(s.phase);
    && |c.keys| + (if r == 3 then s.keysLeft else 0) <= UINT8_MAX && Sizes(c.keys, KEY_SIZE) && (r == 2 ==> c.keys == [])
    && (r > 3 ==> c.keys != []) && (r == 4 ==> s.keysLeft == 0)
    && (r <= 4 ==> c.revokers == [] && c.attributes == [] && c.proofs == [])
    && (r > 4 ==> |c.details| == DETAILS_SIZE && Provider(c.details) < MAX_PROVIDER)
    && |c.revokers| + (if r == 5 then s.revokersLeft else 0) <= UINT16_MAX && Sizes(c.revokers, AR_SIZE)
    && (r > 5 ==> c.revokers != [])
    && (r <= 6 ==> c.attributes == [] && c.proofs == [])
    && (r > 6 ==> |c.dates| == DATES_SIZE)
    && ValidAttributes(c.attributes)
    && |c.attributes| + (if r == 7 then s.attributesLeft else 0) <= UINT16_MAX + (if s.pending.AttributeUp? then 1 else 0)
    && (r == 7 ==> s.attributesLeft > 0) && (s.phase.Value? ==> s.valueLength <= UINT8_MAX)
    && (r <= 8 ==> c.proofs == [])
    && |c.proofs| + (if r == 9 && !s.pending.AddedUp? then s.proofLeft else 0) <= UINT32_MAX
  }

  predicate Inv(s: State) {
    && Fits(s)
    && (s.phase.Start? ==> s == START)
    && (!s.phase.Start? ==> |s.head| == ACCOUNT_TRANSACTION_HEADER_LENGTH + 1)
    && |s.added| + s.credentialsLeft <= UINT8_MAX && ValidCredentials(s.added)
    && (Rank(s.phase) >= 10 <==> !s.phase.Start? && s.credentialsLeft == 0)
    && (2 <= Rank(s.phase) <= 9 ==> DraftFits(s))
    && (Rank(s.phase) <= 10 ==> s.removed == [])
    && |s.removed| + s.idsLeft <= UINT8_MAX && Sizes(s.removed, ID_SIZE)
    && (s.phase.Ids? ==> s.idsLeft > 0) && (s.phase.Threshold? ==> s.idsLeft == 0)
    && s.hash == Transcript(s)
    && s.accepted == Accepted(s)
  }

  // ---- Growing the transcript ----

  lemma SizesAppend(chunks: seq<seq<byte>>, chunk: seq<byte>, n: nat)
    requires Sizes(chunks, n) && |chunk| == n
    ensures Sizes(chunks + [chunk], n)
  {
  }

  lemma OneByte(n: nat)
    requires n < 256
    ensures ToBe(n, 1) == [n]
  {
    assert ToBe(n, 1) == ToBe(n / 256, 0) + [n % 256];
  }

  lemma KeyGrows(c: Credential, key: seq<byte>, left: nat)
    requires left > 0
    ensures WithKeys(c.(keys := c.keys + [key]), left - 1) == WithKeys(c, left) + key
  {
    hide ToBe;
    FlattenAppend(c.keys, key);
    assert |c.keys + [key]| + (left - 1) == |c.keys| + left;
  }

  lemma RevokerGrows(c: Credential, revoker: seq<byte>, left: nat)
    requires left > 0
    ensures WithRevokers(c.(revokers := c.revokers + [revoker]), left - 1) == WithRevokers(c, left) + revoker
  {
    hide ToBe, WithKeys;
    FlattenAppend(c.revokers, revoker);
    assert |c.revokers + [revoker]| + (left - 1) == |c.revokers| + left;
    SameKeys(c, c.(revokers := c.revokers + [revoker]), 0);
  }

  lemma AttributeGrows(c: Credential, a: Attribute, left: nat)
    requires left > 0 && |a.value| <= UINT8_MAX
    ensures WithAttributes(c.(attributes := c.attributes + [a]), left - 1)
         == WithAttributes(c, left) + [a.tag, |a.value|] + a.value
  {
    hide ToBe, WithRevokers, AttributesBytes;
    AttributesAppend(c.attributes, a);
    OneByte(|a.value|);
    assert |c.attributes + [a]| + (left - 1) == |c.attributes| + left;
    SameRevokers(c, c.(attributes := c.attributes + [a]), 0);
  }

  lemma ProofsGrow(c: Credential, more: seq<byte>, left: nat)
    requires |more| <= left
    ensures WithProofs(c.(proofs := c.proofs + more), left - |more|) == WithProofs(c, left) + more
  {
    hide ToBe, WithAttributes;
    assert |c.proofs + more| + (left - |more|) == |c.proofs| + left;
    SameAttributes(c, c.(proofs := c.proofs + more), 0);
  }

  lemma SameKeys(c: Credential, d: Credential, left: nat)
    requires c.index == d.index && c.keys == d.keys
    ensures WithKeys(c, left) == WithKeys(d, left)
  {
  }

  lemma SameRevokers(c: Credential, d: Credential, left: nat)
    requires c.index == d.index && c.keys == d.keys && c.details == d.details && c.revokers == d.revokers
    ensures WithRevokers(c, left) == WithRevokers(d, left)
  {
  }

  lemma SameAttributes(c: Credential, d: Credential, left: nat)
    requires c == d.(proofs := c.proofs)
    ensures WithAttributes(c, left) == WithAttributes(d, left)
  {
  }

  /** A credential with nothing outstanding is its own serialisation. */
  lemma WholeCredential(c: Credential)
    ensures WithProofs(c, 0) == CredentialBytes(c)
  {
    hide ToBe, Flatten, AttributesBytes;
  }

  lemma KeysStart(c: Credential, n: byte)
    requires c.keys == []
    ensures WithKeys(c, n) == [c.index] + [n]
  {
    OneByte(n);
    assert [n] + [] == [n];
  }

  lemma RevokersStart(c: Credential, details: seq<byte>, count: seq<byte>)
    requires c.revokers == [] && |count| == 2
    ensures WithRevokers(c.(details := details), FromBe(count)) == WithKeys(c, 0) + (details + count)
  {
    hide ToBe, FromBe, WithKeys;
    ToBeFromBe(count);
    SameKeys(c, c.(details := details), 0);
    assert count + [] == count;
  }

  lemma AttributesStart(c: Credential, dates: seq<byte>, count: seq<byte>)
    requires c.attributes == [] && |count| == 2
    ensures WithAttributes(c.(dates := dates), FromBe(count)) == WithRevokers(c, 0) + (dates + count)
  {
    hide ToBe, FromBe, WithRevokers;
    ToBeFromBe(count);
    SameRevokers(c, c.(dates := dates), 0);
    assert count + [] == count;
  }

  lemma ProofsStart(c: Credential, count: seq<byte>)
    requires c.proofs == [] && |count| == 4
    ensures WithProofs(c, FromBe(count)) == WithAttributes(c, 0) + count
  {
    hide ToBe, FromBe, WithAttributes;
    ToBeFromBe(count);
    assert count + [] == count;
  }

  lemma SamePrefix(s: State, t: State)
    requires s.head == t.head && s.added == t.added && s.credentialsLeft == t.credentialsLeft
    ensures Prefix(s) == Prefix(t)
  {
  }

  lemma KeyScreensAppend(keys: seq<seq<byte>>)
    requires keys != []
    ensures KeyScreens(keys) == KeyScreens(Most(keys)) + [Key(keys[|keys| - 1])]
  {
  }

  lemma RevealedAppend(attributes: seq<Attribute>)
    requires attributes != []
    ensures RevealedScreens(attributes) == RevealedScreens(Most(attributes)) + [Revealed(attributes[|attributes| - 1])]
  {
  }

  lemma RemovedAppend(ids: seq<seq<byte>>)
    requires ids != []
    ensures RemovedScreens(ids) == RemovedScreens(Most(ids)) + [Removed(ids[|ids| - 1])]
  {
  }

  // ---- Every step keeps the invariant ----

  lemma InitialKeepsInv(s: State, cdata: Data)
    ensures TakeInitial(s, cdata).reply.Open() ==> Inv(TakeInitial(s, cdata).next)
  {
    hide StartTransaction;
    var r := TakeInitial(s, cdata);
    if r.reply.Open() {
      OneByte(r.next.credentialsLeft);
      assert [r.next.credentialsLeft] + [] == [r.next.credentialsLeft];
      assert Transcript(r.next) == Prefix(r.next) + [];
    }
  }

  lemma IndexKeepsInv(s: State, cdata: Data)
    requires Inv(s) && s.phase.Index? && s.pending.Nothing?
    ensures Inv(TakeIndex(s, cdata).next)
  {
    hide ToBe, FromBe, Flatten, CredentialsBytes, CredentialsScreens, ValidCredentials, Prefix;
    var t := TakeIndex(s, cdata).next;
    SamePrefix(s, t);
    assert Prefix(s) + [] == Prefix(s);
  }

  lemma KeyCountKeepsInv(s: State, cdata: Data)
    requires Inv(s) && s.phase.KeyCount? && s.pending.Nothing?
    ensures Inv(TakeKeyCount(s, cdata).next)
  {
    hide ToBe, FromBe, Flatten, CredentialsBytes, CredentialsScreens, ValidCredentials, Prefix, WithKeys;
    var t := TakeKeyCount(s, cdata).next;
    SamePrefix(s, t);
    KeysStart(s.draft, cdata[0]);
    assert KeyScreens([]) == [];
  }

  lemma KeyKeepsInv(s: State, cdata: Data)
    requires Inv(s) && s.phase.Keys? && s.pending.Nothing?
    ensures TakeKey(s, cdata).reply.Open() ==> Inv(TakeKey(s, cdata).next)
  {
    hide ToBe, FromBe, Flatten, CredentialsBytes, CredentialsScreens, ValidCredentials, Prefix, WithKeys, Sizes, ValidAttributes, KeyScreens;
    var t := TakeKey(s, cdata).next;
    if TakeKey(s, cdata).reply.Open() {
      SamePrefix(s, t);
      KeyGrows(s.draft, cdata[..KEY_SIZE], s.keysLeft);
      SizesAppend(s.draft.keys, cdata[..KEY_SIZE], KEY_SIZE);
      assert Most(t.draft.keys) == s.draft.keys;
    }
  }

  lemma DetailsKeepsInv(s: State, cdata: Data)
    requires Inv(s) && s.phase.Details? && s.pending.Nothing?
    ensures TakeDetails(s, cdata).reply.Open() ==> Inv(TakeDetails(s, cdata).next)
  {
    hide ToBe, FromBe, Flatten, CredentialsBytes, CredentialsScreens, ValidCredentials, Prefix, WithKeys, WithRevokers, Sizes, ValidAttributes, KeyScreens;
    var t := TakeDetails(s, cdata).next;
    if TakeDetails(s, cdata).reply.Open() {
      SamePrefix(s, t);
      Pow256Values();
      assert cdata[..56] == cdata[..54] + cdata[54..56];
      assert cdata[..54][49..53] == cdata[49..53];
      RevokersStart(s.draft, cdata[..54], cdata[54..56]);
    }
  }

  lemma RevokerKeepsInv(s: State, cdata: Data)
    requires Inv(s) && s.phase.Revokers? && s.pending.Nothing?
    ensures TakeRevoker(s, cdata).reply.Open() ==> Inv(TakeRevoker(s, cdata).next)
  {
    hide ToBe, FromBe, Flatten, CredentialsBytes, CredentialsScreens, ValidCredentials, Prefix, WithKeys, WithRevokers, Sizes, ValidAttributes, KeyScreens;
    var t := TakeRevoker(s, cdata).next;
    if TakeRevoker(s, cdata).reply.Open() {
      SizesAppend(s.draft.revokers, cdata[..AR_SIZE], AR_SIZE);
      RevokerExtendsTranscript(s, cdata);
      hide Transcript;
      assert Accepted(s) == Accepted(t);
    }
  }

  lemma RevokerExtendsTranscript(s: State, cdata: Data)
    requires s.phase.Revokers? && TakeRevoker(s, cdata).reply.Open()
    requires s.hash == Transcript(s)
    ensures var t := TakeRevoker(s, cdata).next; t.hash == Transcript(t)
  {
    hide ToBe, FromBe, CredentialsBytes, Prefix, WithKeys, WithRevokers;
    SamePrefix(s, TakeRevoker(s, cdata).next);
    RevokerGrows(s.draft, cdata[..AR_SIZE], s.revokersLeft);
  }

  lemma DatesKeepsInv(s: State, cdata: Data)
    requires Inv(s) && s.phase.Dates? && s.pending.Nothing?
    ensures TakeDates(s, cdata).reply.Open() ==> Inv(TakeDates(s, cdata).next)
  {
    hide ToBe, FromBe, Flatten, CredentialsBytes, CredentialsScreens, ValidCredentials, Prefix, WithKeys, WithRevokers, WithAttributes, Sizes, ValidAttributes, KeyScreens;
    var t := TakeDates(s, cdata).next;
    if TakeDates(s, cdata).reply.Open() {
      SamePrefix(s, t);
      Pow256Values();
      assert cdata[..8] == cdata[..6] + cdata[6..8];
      AttributesStart(s.draft, cdata[..6], cdata[6..8]);
      assert RevealedScreens([]) == [];
      assert KeyScreens(Most(s.draft.keys)) + [] == KeyScreens(Most(s.draft.keys));
    }
  }

  lemma TagKeepsInv(s: State, cdata: Data)
    requires Inv(s) && s.phase.Tag? && s.pending.Nothing?
    ensures TakeTag(s, cdata).reply.Open() ==> Inv(TakeTag(s, cdata).next)
  {
    hide ToBe, FromBe, Flatten, CredentialsBytes, CredentialsScreens, ValidCredentials, Prefix, WithAttributes, Sizes, ValidAttributes, KeyScreens, RevealedScreens;
    var t := TakeTag(s, cdata).next;
    if TakeTag(s, cdata).reply.Open() {
      SamePrefix(s, t);
      assert cdata[..2] == [t.tag, t.valueLength % 256];
    }
  }

  lemma ValueKeepsInv(s: State, cdata: Data)
    requires Inv(s) && s.phase.Value? && s.pending.Nothing?
    ensures TakeValue(s, cdata).reply.Open() ==> Inv(TakeValue(s, cdata).next)
  {
    hide ToBe, FromBe, Flatten, CredentialsBytes, CredentialsScreens, ValidCredentials, Prefix, WithAttributes, Sizes, KeyScreens, RevealedScreens, DisplayableText;
    var t := TakeValue(s, cdata).next;
    if TakeValue(s, cdata).reply.Open() {
      SamePrefix(s, t);
      AttributeGrows(s.draft, Attribute(s.tag, cdata[..s.valueLength]), s.attributesLeft);
      assert Most(t.draft.attributes) == s.draft.attributes;
    }
  }

  lemma ProofLengthKeepsInv(s: State, cdata: Data)
    requires Inv(s) && s.phase.ProofLength? && s.pending.Nothing?
    ensures TakeProofLength(s, cdata).reply.Open() ==> Inv(TakeProofLength(s, cdata).next)
  {
    hide ToBe, FromBe, Flatten, CredentialsBytes, CredentialsScreens, ValidCredentials, Prefix, WithAttributes, WithProofs, Sizes, ValidAttributes, KeyScreens, RevealedScreens;
    var t := TakeProofLength(s, cdata).next;
    if TakeProofLength(s, cdata).reply.Open() {
      SamePrefix(s, t);
      Pow256Values();
      ProofsStart(s.draft, cdata[..4]);
    }
  }

  lemma ProofsKeepInv(s: State, cdata: Data)
    requires Inv(s) && s.phase.Proofs? && s.pending.Nothing?
    ensures TakeProofs(s, cdata).reply.Open() ==> Inv(TakeProofs(s, cdata).next)
  {
    hide ToBe, FromBe, Flatten, CredentialsBytes, CredentialsScreens, ValidCredentials, Prefix, WithAttributes, WithProofs, Sizes, ValidAttributes, KeyScreens, RevealedScreens;
    var t := TakeProofs(s, cdata).next;
    if TakeProofs(s, cdata).reply.Open() {
      SamePrefix(s, t);
      var n := if s.proofLeft > MAX_CDATA_LENGTH then MAX_CDATA_LENGTH else s.proofLeft;
      ProofsGrow(s.draft, cdata[..n], s.proofLeft);
    }
  }

  lemma IdCountKeepsInv(s: State, cdata: Data)
    requires Inv(s) && s.phase.IdCount? && s.pending.Nothing?
    ensures Inv(TakeIdCount(s, cdata).next)
  {
    hide ToBe, FromBe, CredentialsBytes, CredentialsScreens, ValidCredentials, Prefix;
    var t := TakeIdCount(s, cdata).next;
    SamePrefix(s, t);
    OneByte(cdata[0]);
    assert RemovedBytes(t) == [cdata[0]] + [];
    assert RemovedScreens([]) == [];
    assert [Intro] + CredentialsScreens(s.added) + [] == [Intro] + CredentialsScreens(s.added);
    assert Prefix(s) + [] == Prefix(s);
  }

  lemma IdKeepsInv(s: State, cdata: Data)
    requires Inv(s) && s.phase.Ids? && s.pending.Nothing?
    ensures TakeId(s, cdata).reply.Open() ==> Inv(TakeId(s, cdata).next)
  {
    hide ToBe, FromBe, Flatten, CredentialsBytes, CredentialsScreens, ValidCredentials, Prefix, Sizes, RemovedScreens;
    var t := TakeId(s, cdata).next;
    if TakeId(s, cdata).reply.Open() {
      SamePrefix(s, t);
      FlattenAppend(s.removed, cdata[..ID_SIZE]);
      SizesAppend(s.removed, cdata[..ID_SIZE], ID_SIZE);
      assert |t.removed| + t.idsLeft == |s.removed| + s.idsLeft;
      assert RemovedBytes(t) == RemovedBytes(s) + cdata[..ID_SIZE];
      assert Most(t.removed) == s.removed;
    }
  }

  lemma ThresholdKeepsInv(s: State, cdata: Data)
    requires Inv(s) && s.phase.Threshold? && s.pending.Nothing?
    ensures Inv(TakeThreshold(s, cdata).next)
  {
    hide ToBe, FromBe, Flatten, CredentialsBytes, CredentialsScreens, ValidCredentials, Prefix, Sizes, RemovedScreens;
    var t := TakeThreshold(s, cdata).next;
    SamePrefix(s, t);
    assert RemovedBytes(s) == RemovedBytes(t);
  }

  lemma PacketKeepsInv(s: State, p1: uint8, p2: uint8, cdata: Data)
    requires Inv(s) && s.pending.Nothing?
    ensures Packet(s, p1, p2, cdata).reply.Open() ==> Inv(Packet(s, p1, p2, cdata).next)
  {
    hide Inv, TakeInitial, TakeIndex, TakeKeyCount, TakeKey, TakeDetails, TakeRevoker, TakeDates, TakeTag, TakeValue,
         TakeProofLength, TakeProofs, TakeIdCount, TakeId, TakeThreshold;
    match s.phase
    case Start => InitialKeepsInv(s, cdata);
    case Index => IndexKeepsInv(s, cdata);
    case KeyCount => KeyCountKeepsInv(s, cdata);
    case Keys => KeyKeepsInv(s, cdata);
    case Details => DetailsKeepsInv(s, cdata);
    case Revokers => RevokerKeepsInv(s, cdata);
    case Dates => DatesKeepsInv(s, cdata);
    case Tag => TagKeepsInv(s, cdata);
    case Value => ValueKeepsInv(s, cdata);
    case ProofLength => ProofLengthKeepsInv(s, cdata);
    case Proofs => ProofsKeepInv(s, cdata);
    case IdCount => IdCountKeepsInv(s, cdata);
    case Ids => if s.idsLeft > 0 { IdKeepsInv(s, cdata); }
    case Threshold => ThresholdKeepsInv(s, cdata);
  }

  lemma IntroApproved(s: State)
    requires Inv(s) && s.pending.IntroUp?
    ensures Approve(s).reply.Open() && Inv(Approve(s).next)
  {
    hide ToBe, FromBe, Flatten, CredentialsBytes, Prefix;
    var t := Approve(s).next;
    SamePrefix(s, t);
    assert CredentialsScreens([]) == [];
    assert [Intro] + [] == [Intro];
  }

  lemma KeyApproved(s: State)
    requires Inv(s) && s.pending.KeyUp?
    ensures Approve(s).reply.Open() && Approve(s).next.phase.Keys? && Inv(Approve(s).next)
  {
    hide ToBe, FromBe, Flatten, CredentialsBytes, CredentialsScreens, ValidCredentials, Prefix, WithKeys, Sizes, ValidAttributes, KeyScreens;
    var t := Approve(s).next;
    SamePrefix(s, t);
    KeyScreensAppend(s.draft.keys);
  }

  lemma AttributeApproved(s: State)
    requires Inv(s) && s.pending.AttributeUp?
    ensures Approve(s).reply.Open() && Inv(Approve(s).next)
  {
    hide ToBe, FromBe, Flatten, CredentialsBytes, CredentialsScreens, ValidCredentials, Prefix, WithAttributes, Sizes, ValidAttributes, KeyScreens, RevealedScreens;
    var t := Approve(s).next;
    SamePrefix(s, t);
    RevealedAppend(s.draft.attributes);
  }

  lemma AddedApproved(s: State)
    requires Inv(s) && s.pending.AddedUp?
    ensures Approve(s).reply.Open() && Inv(Approve(s).next) && ValidCredential(s.draft)
  {
    hide ToBe, FromBe, Flatten, CredentialsBytes, WithAttributes, Sizes, ValidAttributes, KeyScreens, RevealedScreens,
         CredentialBytes, WithProofs, CredentialsScreens, ValidCredentials, Prefix, CredentialScreens;
    var t := Approve(s).next;
    assert ValidCredential(s.draft);
    AddedPrefix(s, t);
    assert Prefix(t) + [] == Prefix(t);
    CredentialsScreensAppend(s.added, s.draft);
    var last := KeyScreens(Most(s.draft.keys)) + RevealedScreens(s.draft.attributes);
    assert [Intro] + (CredentialsScreens(s.added) + (last + [Added(s.draft)]))
        == [Intro] + CredentialsScreens(s.added) + last + [Added(s.draft)];
    assert Accepted(t) == [Intro] + CredentialsScreens(t.added) + [];
  }

  /** An accepted credential moves from the draft to the prefix of the transcript. */
  lemma AddedPrefix(s: State, t: State)
    requires s.head == t.head && t.added == s.added + [s.draft] && t.credentialsLeft == s.credentialsLeft - 1
    ensures Prefix(t) == Prefix(s) + WithProofs(s.draft, 0)
  {
    hide ToBe, CredentialsBytes, WithProofs, CredentialBytes;
    CredentialsAppend(s.added, s.draft);
    WholeCredential(s.draft);
    assert |t.added| + t.credentialsLeft == |s.added| + s.credentialsLeft;
  }

  lemma CredentialsScreensAppend(cs: seq<Credential>, c: Credential)
    requires ValidCredentials(cs) && ValidCredential(c)
    ensures ValidCredentials(cs + [c]) && CredentialsScreens(cs + [c])
         == CredentialsScreens(cs) + (KeyScreens(Most(c.keys)) + RevealedScreens(c.attributes) + [Added(c)])
  {
    assert (cs + [c])[..|cs|] == cs;
  }

  lemma IdApproved(s: State)
    requires Inv(s) && s.pending.IdUp?
    ensures Approve(s).reply.Open() && Inv(Approve(s).next)
  {
    hide ToBe, FromBe, Flatten, CredentialsBytes, CredentialsScreens, ValidCredentials, Prefix, Sizes, RemovedScreens;
    var t := Approve(s).next;
    SamePrefix(s, t);
    RemovedAppend(s.removed);
  }

  /** The throws of the approval callbacks and the branch for no keys left are never reached. */
  lemma ApprovalsSucceed(s: State)
    requires Inv(s) && !s.pending.Nothing? && !s.pending.SignUp?
    ensures Approve(s).reply.Open() && Inv(Approve(s).next)
    ensures s.pending.KeyUp? ==> Approve(s).next.phase.Keys?
  {
    hide Inv, Approve;
    match s.pending
    case IntroUp => IntroApproved(s);
    case KeyUp => KeyApproved(s);
    case AttributeUp => AttributeApproved(s);
    case AddedUp => AddedApproved(s);
    case IdUp => IdApproved(s);
    case _ =>
  }

  /** The throws for keys not yet sent and for no attributes left are never reached either. */
  lemma LeftoversAreImpossible(s: State)
    requires Inv(s)
    ensures s.phase.Details? ==> s.keysLeft == 0
    ensures s.phase.Tag? || s.phase.Value? ==> s.attributesLeft > 0
    ensures 1 <= Rank(s.phase) <= 9 ==> s.credentialsLeft > 0
  {
  }
}
