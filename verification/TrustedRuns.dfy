/** Challenges, descriptors and reviews over whole runs of the application. */
module TrustedRuns {
  import opened Bytes
  import opened DerivationPath
  import opened Options
  import opened TrustedName
  import opened VerifyAddress

  /**
   The commands that read or write the trusted globals; no other command does. `BrokenSet` is a
   well-formed attempt that the SDK ends with an exception while the descriptor is hashed.
   */
  datatype Event =
    | IssueChallenge(nonce: uint64)
    | SetName(p1: uint8, p2: uint8, hasData: bool, payload: Payload)
    | BrokenSet
    | VerifyCommand(p1: uint8, p2: uint8, cdata: seq<byte>)

  function Next(t: Trust, app: Semver, d: Derivation, e: Event): Trust {
    match e
    case IssueChallenge(nonce) => GetChallenge(t, nonce)
    case SetName(p1, p2, hasData, payload) => SetTrustedName(t, app, p1, p2, hasData, payload).0
    case BrokenSet => t.(valid := false)
    case VerifyCommand(p1, p2, cdata) => Verify(t, d, p1, p2, cdata).trust
  }

  /** The globals after a run from power-up. */
  function Run(app: Semver, d: Derivation, events: seq<Event>): Trust {
    if events == [] then NO_TRUST else Next(Run(app, d, events[..|events| - 1]), app, d, events[|events| - 1])
  }

  function Before(app: Semver, d: Derivation, events: seq<Event>, i: nat): Trust
    requires i < |events|
  {
    Run(app, d, events[..i])
  }

  /** Command `i` is an attempt that is accepted. */
  predicate Accepted(app: Semver, d: Derivation, events: seq<Event>, i: nat) {
    && i < |events| && events[i].SetName?
    && SetTrustedName(Before(app, d, events, i), app, events[i].p1, events[i].p2, events[i].hasData, events[i].payload).1
  }

  /** Command `i` tries the binding against the path it reviews. */
  predicate Tries(app: Semver, d: Derivation, events: seq<Event>, i: nat) {
    && i < |events| && events[i].VerifyCommand?
    && Verify(Before(app, d, events, i), d, events[i].p1, events[i].p2, events[i].cdata).tried
  }

  /** A run cut short is the same run so far. */
  lemma Shorter(app: Semver, d: Derivation, events: seq<Event>, n: nat, i: nat)
    requires i < n <= |events|
    ensures Accepted(app, d, events[..n], i) <==> Accepted(app, d, events, i)
    ensures Tries(app, d, events[..n], i) <==> Tries(app, d, events, i)
  {
    assert events[..n][..i] == events[..i] && events[..n][i] == events[i];
  }

  /** Where the stored challenge comes from: the last GET_CHALLENGE, with no attempt since. */
  predicate Issued(events: seq<Event>, i: nat, nonce: uint64) {
    && i < |events| && events[i] == IssueChallenge(nonce)
    && forall k :: i < k < |events| ==> !events[k].SetName? && !events[k].IssueChallenge?
  }

  lemma {:induction false} StoredChallengeWasIssued(app: Semver, d: Derivation, events: seq<Event>) returns (i: nat)
    requires Run(app, d, events).challenge != 0
    ensures Issued(events, i, Run(app, d, events).challenge)
  {
    var n := |events| - 1;
    var init, e := events[..n], events[n];
    if e.IssueChallenge? {
      i := n;
    } else {
      SetSpends(Run(app, d, init), app, d, e);
      i := StoredChallengeWasIssued(app, d, init);
      assert forall k :: i < k < n ==> events[k] == init[k];
    }
  }

  lemma SetSpends(t: Trust, app: Semver, d: Derivation, e: Event)
    requires !e.IssueChallenge?
    ensures Next(t, app, d, e).challenge == if e.SetName? then 0 else t.challenge
  {
    if e.VerifyCommand? {
      TryingClears(t, d, e.p1, e.p2, e.cdata);
    }
  }

  lemma {:induction false} IssuedIsStored(app: Semver, d: Derivation, events: seq<Event>, i: nat, nonce: uint64)
    requires Issued(events, i, nonce)
    ensures Run(app, d, events).challenge == nonce
  {
    var n := |events| - 1;
    if i < n {
      SetSpends(Run(app, d, events[..n]), app, d, events[n]);
      assert forall k :: i < k < n ==> events[k] == events[..n][k];
      IssuedIsStored(app, d, events[..n], i, nonce);
    }
  }

  /**
   Over all runs, attempt `j` is accepted exactly if it has parameters of zero and data, its payload
   is a descriptor that Ledger's key 7 signed as a resolver's name of a Concordium account on a
   network of this application, for this version of it and for nothing else, and the challenge in it
   is that of the last GET_CHALLENGE, not zero, with no attempt in between.
   */
  lemma AcceptedIff(app: Semver, d: Derivation, events: seq<Event>, j: nat)
    requires j < |events| && events[j].SetName?
    ensures Accepted(app, d, events, j) <==>
            && events[j].p1 == 0 && events[j].p2 == 0 && events[j].hasData
            && events[j].payload.signed && events[j].payload.parsed.Some?
            && (var t := events[j].payload.parsed.value;
                && {StructureType, Version, NameType, NameSource, Name, ChainId, Address, Challenge, SignerKeyId, SignerAlgorithm,
                    DerSignature} <= t.received
                && NftId !in t.received && SourceContract !in t.received
                && t.structureType == 3 && t.version == 3 && t.nameType == 7 && t.nameSource == 6 && t.signerKeyId == 7
                && |t.address| == 32 && t.chainId <= 1
                && (NotValidAfter in t.received ==> app.Ordinal() <= t.notValidAfter.Ordinal())
                && t.challenge != 0 && exists i :: Issued(events[..j], i, t.challenge))
  {
    hide Issued, Run;
    var t := events[j].payload.parsed;
    var stored := Before(app, d, events, j).challenge;
    if stored != 0 {
      var i := StoredChallengeWasIssued(app, d, events[..j]);
    }
    if t.Some? {
      forall i | Issued(events[..j], i, t.value.challenge) ensures stored == t.value.challenge {
        IssuedIsStored(app, d, events[..j], i, t.value.challenge);
      }
    }
  }

  /**
   An accepted attempt answers the last challenge issued, which is not zero, with no attempt since:
   a challenge admits one accepted attempt at most, and only the next one.
   */
  lemma AcceptedAnswersFreshChallenge(app: Semver, d: Derivation, events: seq<Event>, j: nat) returns (i: nat)
    requires Accepted(app, d, events, j)
    ensures i < j && events[i].IssueChallenge? && events[i].nonce != 0
    ensures events[j].payload.parsed.Some? && events[j].payload.parsed.value.challenge == events[i].nonce
    ensures forall k :: i < k < j ==> !events[k].SetName?
  {
    i := StoredChallengeWasIssued(app, d, events[..j]);
    assert forall k :: i < k < j ==> events[k] == events[..j][k];
  }

  lemma OneAcceptancePerChallenge(app: Semver, d: Derivation, events: seq<Event>, j: nat, k: nat) returns (i: nat)
    requires j < k && Accepted(app, d, events, j) && Accepted(app, d, events, k)
    ensures j < i < k && events[i].IssueChallenge? && events[i].nonce == events[k].payload.parsed.value.challenge
  {
    i := AcceptedAnswersFreshChallenge(app, d, events, k);
  }

  /** The binding is what the accepted attempt `j` set, untried and unreplaced since. */
  ghost predicate Bound(app: Semver, d: Derivation, events: seq<Event>, j: nat) {
    var t := Run(app, d, events);
    && Accepted(app, d, events, j) && events[j].payload.signed && Authorized(app, events[j].payload.parsed.value)
    && t.name == events[j].payload.parsed.value.name && t.key == events[j].payload.parsed.value.address
    && t.chainId == events[j].payload.parsed.value.chainId
    && forall k :: j < k < |events| ==> !Tries(app, d, events, k) && !Accepted(app, d, events, k)
  }

  lemma {:induction false} BindingWasAccepted(app: Semver, d: Derivation, events: seq<Event>) returns (j: nat)
    requires Run(app, d, events).valid
    ensures Bound(app, d, events, j)
  {
    hide Verify, Authorized;
    var n := |events| - 1;
    var init, e := events[..n], events[n];
    var t := Run(app, d, init);
    if Accepted(app, d, events, n) {
      j := n;
    } else {
      if e.VerifyCommand? {
        TryingClears(t, d, e.p1, e.p2, e.cdata);
      }
      assert t.valid && !Tries(app, d, events, n);
      j := BindingWasAccepted(app, d, init);
      Shorter(app, d, events, n, j);
      forall k | j < k < |events| ensures !Tries(app, d, events, k) && !Accepted(app, d, events, k) {
        if k < n { Shorter(app, d, events, n, k); }
      }
    }
  }

  /** Between two commands that try a binding, an attempt was accepted: each binding is tried once. */
  lemma BindingsAreTriedOnce(app: Semver, d: Derivation, events: seq<Event>, k: nat, l: nat) returns (j: nat)
    requires k < l && Tries(app, d, events, k) && Tries(app, d, events, l)
    ensures k < j < l && Accepted(app, d, events, j)
  {
    hide Verify, Authorized;
    var e := events[l];
    TryingClears(Before(app, d, events, l), d, e.p1, e.p2, e.cdata);
    j := BindingWasAccepted(app, d, events[..l]);
    Shorter(app, d, events, l, j);
    Shorter(app, d, events, l, k);
  }

  /**
   A review under a binding: one accepted attempt, authorised for this use and answering a fresh
   challenge, named the address shown, on the network and with the key of the path shown, and that
   address is derived from the path or the path is one that signs for a single account.
   */
  lemma CertifiedReview(app: Semver, d: Derivation, events: seq<Event>, k: nat) returns (j: nat)
    requires k < |events| && events[k].VerifyCommand? && Before(app, d, events, k).valid
    requires Verify(Before(app, d, events, k), d, events[k].p1, events[k].p2, events[k].cdata).outcome.Review?
    ensures j < k && Accepted(app, d, events, j)
    ensures events[j].payload.signed && Authorized(app, events[j].payload.parsed.value)
    ensures forall i :: j < i < k ==> !Tries(app, d, events, i)
    ensures var o := Verify(Before(app, d, events, k), d, events[k].p1, events[k].p2, events[k].cdata).outcome;
      var certified := events[j].payload.parsed.value;
      && o.key.KeyPath? && o.address == certified.name && ChainOf(NetworkOf(o.key.nodes)) == Some(certified.chainId)
      && d.publicKey(HardenAll(o.key.nodes)) == Some(certified.address)
      && (d.address(HardenAll(o.key.nodes), o.key.counter) == Some(o.address)
          || (|o.key.nodes| == 6 && o.key.nodes[0] % 0x8000_0000 == 44 && o.key.nodes[4] % 0x8000_0000 == 0))
  {
    hide Verify, Authorized;
    var e := events[k];
    ShownAddressIsGenuine(Before(app, d, events, k), d, e.p1, e.p2, e.cdata);
    j := BindingWasAccepted(app, d, events[..k]);
    Shorter(app, d, events, k, j);
    forall i | j < i < k ensures !Tries(app, d, events, i) {
      Shorter(app, d, events, k, i);
    }
  }

  /** An attempt of any kind and outcome spends the challenge: the next accepted one answers a later challenge. */
  lemma AttemptsSpendChallenges(app: Semver, d: Derivation, events: seq<Event>, j: nat, k: nat) returns (i: nat)
    requires j < k < |events| && events[j].SetName? && Accepted(app, d, events, k)
    ensures j < i < k && events[i].IssueChallenge? && events[i].nonce == events[k].payload.parsed.value.challenge
  {
    i := AcceptedAnswersFreshChallenge(app, d, events, k);
  }

  /** In any run, a rejected attempt leaves a binding in force exactly if it was malformed. */
  lemma RejectedAttemptKeepsBindingIff(app: Semver, d: Derivation, events: seq<Event>, i: nat)
    requires i < |events| && events[i].SetName? && !Accepted(app, d, events, i)
    ensures Run(app, d, events[..i + 1]).valid
       <==> Run(app, d, events[..i]).valid && (events[i].p1 != 0 || events[i].p2 != 0 || !events[i].hasData)
  {
    var e, t := events[i], Before(app, d, events, i);
    assert events[..i + 1][..i] == events[..i];
    RejectionKeepsBindingIff(t, app, e.p1, e.p2, e.hasData, e.payload);
  }

  /**
   Such a binding can still certify a review: a malformed attempt between a descriptor and its use
   changes neither the binding nor the answer.
   */
  lemma MalformedAttemptIsHarmlessToBinding(app: Semver, d: Derivation, events: seq<Event>, p1: uint8, p2: uint8,
                                            hasData: bool, payload: Payload, q1: uint8, q2: uint8, cdata: seq<byte>)
    requires p1 != 0 || p2 != 0 || !hasData
    ensures var e := SetName(p1, p2, hasData, payload);
      Verify(Run(app, d, events + [e]), d, q1, q2, cdata).outcome == Verify(Run(app, d, events), d, q1, q2, cdata).outcome
  {
    var e := SetName(p1, p2, hasData, payload);
    assert (events + [e])[..|events|] == events;
  }
}
