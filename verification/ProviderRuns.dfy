/** The identity-provider row over whole runs of an update. */
module ProviderRuns {
  import opened Bytes
  import opened CredentialFlow
  import opened CredentialGrammar
  import opened CredentialHandler
  import opened CredentialRuns
  import opened Decimal
  import opened DerivationPath
  import opened Options
  import P = ProviderRow
  import opened TxHash

  /** What the review of an added credential shows as its identity provider, up to the text behind the buffer. */
  function Row(s: State, following: seq<byte>): seq<byte>
    requires Inv(s)
  {
    CString(P.BufferAfter(Providers(s)) + following)
  }

  /**
   Over all runs: credential `i` of an update is shown with the right provider exactly if its
   provider has at most eight digits and no credential before it had more. `following` is the text
   of the revoker identity, which stands behind the buffer.
   */
  lemma ProviderIsShownIff(events: seq<Event>, i: nat, following: seq<byte>) returns (k: nat, s: State)
    requires Run(events).Some? && i < |Run(events).value.added| && following != [] && following[0] != 0
    ensures k < |events| && Run(events[..k]) == Some(s) && s.pending.AddedUp? && Inv(s)
    ensures var cs := Run(events).value.added;
      && ValidCredentials(cs) && s.added == cs[..i] && s.draft == cs[i] && ValidCredential(cs[i])
      && ValidCredentials(cs[..i])
      && (Row(s, following) == Dec(Provider(cs[i].details)) <==> ProviderFits(cs[..i], cs[i]))
  {
    hide Run, Inv, CString, P.BufferAfter, FromBe, Dec, ValidCredential;
    RunsKeepInv(events);
    k := EveryAddedWasReviewed(events, i);
    RunsKeepInv(events[..k]);
    s := Run(events[..k]).value;
    AddedParts(Run(events).value);
    AddedParts(s);
    AddedApproved(s);
    ReviewedProviders(s);
    var before, provider := ProvidersOf(s.added), Provider(s.draft.details);
    ProviderOfValid(s.draft);
    P.RowIsExactIff(before, provider, following);
    assert forall j :: 0 <= j < |s.added| ==> before[j] == Provider(s.added[j].details);
  }

  lemma AddedParts(s: State)
    requires Inv(s)
    ensures ValidCredentials(s.added)
  {
  }

  lemma ReviewedProviders(s: State)
    requires Inv(s) && s.pending.AddedUp?
    ensures |s.draft.details| == DETAILS_SIZE && ValidCredentials(s.added)
    ensures Providers(s) == ProvidersOf(s.added) + [Provider(s.draft.details)]
  {
  }

  lemma ProviderOfValid(c: Credential)
    requires ValidCredential(c)
    ensures |c.details| == DETAILS_SIZE && |Dec(Provider(c.details))| <= P.PROVIDER_SIZE
  {
    ShortProvider(Provider(c.details));
  }

  /**
   Concrete inputs: every update whose first credential has provider 12345 and whose second has
   provider 67 has a run in which the second is reviewed as coming from provider 67345.
   */
  lemma ShorterProviderIsMisread(first: Data, u: Update, following: seq<byte>) returns (events: seq<Event>, s: State)
    requires ValidUpdate(u) && |u.added| >= 2
    requires |u.added[0].details| >= 53 && Provider(u.added[0].details) == 12345
    requires |u.added[1].details| >= 53 && Provider(u.added[1].details) == 67
    requires var start := StartTransaction(first, KIND_UPDATE_CREDENTIALS);
      start.Started? && start.rest != [] && start.rest[0] == |u.added|
    ensures Run(events) == Some(s) && Inv(s) && s.pending.AddedUp? && s.draft == u.added[1] && s.added == u.added[..1]
    ensures Row(s, following) == Dec(67345)
  {
    hide Run, Inv, CString, FromBe, Dec, ValidUpdate, StartTransaction, Payload, Screens, P.BufferAfter;
    var all, t := EveryUpdateHasARun(first, u);
    var k := EveryAddedWasReviewed(all, 1);
    events := all[..k];
    RunsKeepInv(events);
    s := Run(events).value;
    ReviewedProviders(s);
    assert s.added == [u.added[0]];
    assert ProvidersOf(s.added) == [12345];
    assert Providers(s) == [12345, 67];
    P.ShorterProviderIsMisread();
    DecHasNoZero(67345);
    assert P.BufferAfter([12345, 67]) + following == Dec(67345) + [0] + ([0, 0, 0] + following);
    CStringOf(Dec(67345), [0, 0, 0] + following);
  }

  lemma DecHasNoZero(n: nat)
    ensures 0 !in Dec(n)
  {
    P.DigitsAreNotZero(Dec(n));
  }
}
