/** What a contract review leaves open: which other transactions show the same name row and digest the same bytes. */
module ContractReview {
  import opened Bytes
  import opened Contract
  import opened DerivationPath
  import opened Options

  /** A name and parameters that some packets present. */
  predicate Admissible(name: seq<byte>, params: seq<byte>) {
    |name| <= UINT16_MAX && |params| <= UINT16_MAX && DisplayableText(name)
  }

  /** The name row and the digested bytes are the same. */
  predicate SameRows(name: seq<byte>, params: seq<byte>, n: seq<byte>, p: seq<byte>) {
    NameRow(name) == NameRow(n) && name + params == n + p
  }

  /** Another transaction has the rows of this one. */
  ghost predicate Shared(name: seq<byte>, params: seq<byte>) {
    exists n, p :: Admissible(n, p) && SameRows(name, params, n, p) && (n, p) != (name, params)
  }

  /**
   When that is so. A name too long for the row can give up a byte to the parameters or take one
   from them; a name that spells the marker is taken for a name too long, and the other way round.
   */
  predicate Sharing(name: seq<byte>, params: seq<byte>) {
    || (|name| > CONTRACT_NAME_SIZE && |params| < UINT16_MAX)
    || (CONTRACT_NAME_SIZE <= |name| < UINT16_MAX && params != [] && IsDisplayable(params[0]))
    || (name == TOO_LONG && |params| >= 224 && DisplayableText(params[..224]))
    || (|name| == CONTRACT_NAME_SIZE && name[..|TOO_LONG|] == TOO_LONG && |params| + 224 <= UINT16_MAX)
  }

  /** Moving the end of the name to `k` gives the same digested bytes. */
  lemma Moved(name: seq<byte>, params: seq<byte>, k: nat)
    requires k <= |name + params|
    ensures var n, p := (name + params)[..k], (name + params)[k..];
      n + p == name + params && |n| == k && |p| == |name| + |params| - k
    ensures var n := (name + params)[..k];
      n == if k <= |name| then name[..k] else name + params[..k - |name|]
  {
    var all := name + params;
    assert all[..k] + all[k..] == all;
  }

  lemma MovedIsShared(name: seq<byte>, params: seq<byte>, k: nat)
    requires Admissible(name, params) && k <= |name + params| && k != |name| && k <= UINT16_MAX
    requires |name| + |params| - k <= UINT16_MAX && DisplayableText((name + params)[..k])
    requires NameRow((name + params)[..k]) == NameRow(name)
    ensures Shared(name, params)
  {
    hide NameRow, DisplayableText;
    Moved(name, params, k);
    var n, p := (name + params)[..k], (name + params)[k..];
    assert Admissible(n, p) && SameRows(name, params, n, p);
  }

  lemma SharingIsShared(name: seq<byte>, params: seq<byte>)
    requires Admissible(name, params) && Sharing(name, params)
    ensures Shared(name, params)
  {
    hide Shared, TOO_LONG;
    assert |TOO_LONG| == 32 by { MarkerLength(); }
    if |name| > CONTRACT_NAME_SIZE && |params| < UINT16_MAX {
      Moved(name, params, |name| - 1);
      MovedIsShared(name, params, |name| - 1);
    } else if CONTRACT_NAME_SIZE <= |name| < UINT16_MAX && params != [] && IsDisplayable(params[0]) {
      Moved(name, params, |name| + 1);
      DisplayableParts(name, params[..1]);
      MovedIsShared(name, params, |name| + 1);
    } else if name == TOO_LONG && |params| >= 224 {
      Moved(name, params, 256);
      DisplayableParts(name, params[..224]);
      MovedIsShared(name, params, 256);
    } else {
      Moved(name, params, 32);
      MovedIsShared(name, params, 32);
    }
  }

  lemma MarkerLength()
    ensures |TOO_LONG| == 32
  {
  }

  lemma SharedIsSharing(name: seq<byte>, params: seq<byte>, n: seq<byte>, p: seq<byte>)
    requires Admissible(name, params) && Admissible(n, p) && SameRows(name, params, n, p) && (n, p) != (name, params)
    ensures Sharing(name, params)
  {
    hide TOO_LONG, DisplayableText;
    assert |TOO_LONG| == 32 by { MarkerLength(); }
    var all, k := name + params, |n|;
    assert n == all[..k] && p == all[k..] && |all| == k + |p|;
    assert all[..|name|] == name && all[|name|..] == params;
    Moved(name, params, k);
    if k > |name| {
      var more := params[..k - |name|];
      DisplayableParts(name, more);
      FirstOf(more);
      if |name| < CONTRACT_NAME_SIZE {
        assert name == TOO_LONG && more == params[..k - 32] && k >= 256;
        DisplayableParts(params[..224], params[224..k - 32]);
        assert more == params[..224] + params[224..k - 32];
      }
    }
  }

  lemma FirstOf(text: seq<byte>)
    requires DisplayableText(text) && text != []
    ensures IsDisplayable(text[0])
  {
  }

  /** The rows of a transaction are shared exactly under a condition that can be checked before signing. */
  lemma SharedIff(name: seq<byte>, params: seq<byte>)
    requires Admissible(name, params)
    ensures Shared(name, params) <==> Sharing(name, params)
  {
    hide Sharing, SameRows, Admissible;
    if Shared(name, params) {
      var n, p :| Admissible(n, p) && SameRows(name, params, n, p) && (n, p) != (name, params);
      SharedIsSharing(name, params, n, p);
    }
    if Sharing(name, params) {
      SharingIsShared(name, params);
    }
  }

  // ---- The transactions are ones the device reviews ----

  /** A field cut into packets of 255 bytes. */
  function CutUp(bytes: seq<byte>): (chunks: seq<Data>)
    ensures Flatten(chunks) == bytes
    ensures bytes != [] ==> chunks != [] && |chunks[0]| == if |bytes| > 255 then 255 else |bytes|
  {
    if bytes == [] then []
    else if |bytes| <= 255 then
      assert Flatten([bytes]) == bytes by { FlattenOne(bytes, []); assert [bytes] + [] == [bytes]; }
      [bytes]
    else
      var first: Data := bytes[..255];
      FlattenOne(first, CutUp(bytes[255..]));
      assert bytes[..255] + bytes[255..] == bytes;
      [first] + CutUp(bytes[255..])
  }

  /** The packets that present a name and parameters, after an initial packet. */
  function PacketsOf(first: Data, name: seq<byte>, params: seq<byte>): seq<Packet> {
    [Packet(0, first)] + Packets(1, CutUp(Sized(name))) + Packets(2, CutUp(Sized(params)))
  }

  lemma EveryAdmissibleIsReviewed(which: Which, first: Data, name: seq<byte>, params: seq<byte>)
    requires Begin(which, first).next.NameFirst? && Admissible(name, params)
    ensures var s := Begin(which, first).next;
      Run(which, Fresh, PacketsOf(first, name, params)) == Some(Review(s.path, s.head, name, params))
  {
    hide Run, Begin, DisplayableText;
    var s := Begin(which, first).next;
    var names, values := CutUp(Sized(name)), CutUp(Sized(params));
    SizedParts(name);
    SizedParts(params);
    var r := Review(s.path, s.head, name, params);
    assert Presents(which, PacketsOf(first, name, params), first, names, values, r);
    ReviewIffPresented(which, PacketsOf(first, name, params), r);
  }

  /** Another flow ends in a review of the same header, the same rows and the same digest, but signs other bytes. */
  ghost predicate Misleading(which: Which, s: State) {
    exists packets: seq<Packet>, t: State ::
      && Run(which, Fresh, packets) == Some(t) && t.Review? && s.Review?
      && t.path == s.path && t.head == s.head
      && NameRow(t.name) == NameRow(s.name) && Digested(t) == Digested(s) && Transcript(t) != Transcript(s)
  }

  /**
   Exactly when a review the device has up fails to determine what is signed: a condition on the
   name and the parameters of the transaction at hand.
   */
  lemma ReviewIsMisleadingIff(which: Which, packets: seq<Packet>, s: State)
    requires Run(which, Fresh, packets) == Some(s) && s.Review?
    ensures Misleading(which, s) <==> Sharing(s.name, s.params)
  {
    hide Run, Sharing, SameRows, Transcript, Begin, DisplayableText, NameRow, Digested;
    var first: Data := ReviewedFirst(which, packets, s);
    SharedIff(s.name, s.params);
    if Misleading(which, s) {
      var others: seq<Packet>, t: State :|
        && Run(which, Fresh, others) == Some(t) && t.Review? && t.path == s.path && t.head == s.head
        && NameRow(t.name) == NameRow(s.name) && Digested(t) == Digested(s) && Transcript(t) != Transcript(s);
      RowsAndDigest(s, t);
      var _ := ReviewedFirst(which, others, t);
      assert s == Review(s.path, s.head, s.name, s.params) && t == Review(t.path, t.head, t.name, t.params);
      assert Shared(s.name, s.params);
    }
    if Sharing(s.name, s.params) {
      var n, p :| Admissible(n, p) && SameRows(s.name, s.params, n, p) && (n, p) != (s.name, s.params);
      EveryAdmissibleIsReviewed(which, first, n, p);
      var others, t := PacketsOf(first, n, p), Review(s.path, s.head, n, p);
      if Transcript(t) == Transcript(s) {
        SignedBytesDetermineTransaction(which, packets, s, which, others, t);
      }
      RowsAndDigest(s, t);
      assert Misleading(which, s);
    }
  }

  /** The name row and the digest of two reviews. */
  lemma RowsAndDigest(s: State, t: State)
    requires s.Review? && t.Review?
    ensures SameRows(s.name, s.params, t.name, t.params) <==> NameRow(t.name) == NameRow(s.name) && Digested(t) == Digested(s)
  {
  }

  /**
   Otherwise the name row and the digest determine the name and the parameters; in particular
   whenever the name fits its row and does not spell the marker.
   */
  lemma RowsDetermineFields(which: Which, packets: seq<Packet>, s: State, others: seq<Packet>, t: State)
    requires Run(which, Fresh, packets) == Some(s) && s.Review?
    requires Run(which, Fresh, others) == Some(t) && t.Review?
    requires SameRows(s.name, s.params, t.name, t.params)
    ensures !Sharing(s.name, s.params) ==> s.name == t.name && s.params == t.params
    ensures |s.name| < CONTRACT_NAME_SIZE && s.name != TOO_LONG ==> s.name == t.name && s.params == t.params
  {
    hide Run, SameRows, DisplayableText, Begin;
    var _ := ReviewedFirst(which, packets, s);
    var _ := ReviewedFirst(which, others, t);
    if (t.name, t.params) != (s.name, s.params) {
      SharedIsSharing(s.name, s.params, t.name, t.params);
    }
  }

  lemma ReviewedFirst(which: Which, packets: seq<Packet>, s: State) returns (first: Data)
    requires Run(which, Fresh, packets) == Some(s) && s.Review?
    ensures Begin(which, first).next == NameFirst(s.path, s.head) && Admissible(s.name, s.params)
  {
    hide Run, Begin, DisplayableText;
    ReviewIffPresented(which, packets, s);
    var f: Data, names: seq<Data>, params: seq<Data> :| Presents(which, packets, f, names, params, s);
    first := f;
  }

  /** Two names too long for the row: the last byte of one is the first parameter of the other. */
  lemma LongNamesShareARow(which: Which, first: Data)
    requires Begin(which, first).next.NameFirst?
    ensures var long := seq(300, _ => 0x61 as byte);
      var s := Begin(which, first).next;
      var a, b := Review(s.path, s.head, long, []), Review(s.path, s.head, long[..299], [0x61]);
      && Run(which, Fresh, PacketsOf(first, long, [])) == Some(a)
      && Run(which, Fresh, PacketsOf(first, long[..299], [0x61])) == Some(b)
      && SameRows(a.name, a.params, b.name, b.params) && Transcript(a) != Transcript(b)
  {
    hide Run, Begin, Transcript;
    var long := seq(300, _ => 0x61 as byte);
    assert long[..299] + [0x61] == long;
    DifferentReviews(which, first, long, [], long[..299], [0x61]);
  }

  /** A short name too: one that spells the marker looks like a name too long for the row. */
  lemma MarkerNameSharesARow(which: Which, first: Data)
    requires Begin(which, first).next.NameFirst?
    ensures var tail := seq(300, _ => 0x61 as byte);
      var s := Begin(which, first).next;
      var a, b := Review(s.path, s.head, TOO_LONG, tail), Review(s.path, s.head, TOO_LONG + tail, []);
      && Run(which, Fresh, PacketsOf(first, TOO_LONG, tail)) == Some(a)
      && Run(which, Fresh, PacketsOf(first, TOO_LONG + tail, [])) == Some(b)
      && SameRows(a.name, a.params, b.name, b.params) && Transcript(a) != Transcript(b)
  {
    hide Run, Begin, Transcript;
    var tail := seq(300, _ => 0x61 as byte);
    MarkerLength();
    DisplayableParts(TOO_LONG, tail);
    DifferentReviews(which, first, TOO_LONG, tail, TOO_LONG + tail, []);
  }

  lemma DifferentReviews(which: Which, first: Data, name: seq<byte>, params: seq<byte>, n: seq<byte>, p: seq<byte>)
    requires Begin(which, first).next.NameFirst? && Admissible(name, params) && Admissible(n, p) && (n, p) != (name, params)
    ensures var s := Begin(which, first).next;
      var a, b := Review(s.path, s.head, name, params), Review(s.path, s.head, n, p);
      && Run(which, Fresh, PacketsOf(first, name, params)) == Some(a)
      && Run(which, Fresh, PacketsOf(first, n, p)) == Some(b) && Transcript(a) != Transcript(b)
  {
    hide Run, Begin, Transcript, Admissible;
    EveryAdmissibleIsReviewed(which, first, name, params);
    EveryAdmissibleIsReviewed(which, first, n, p);
    var s := Begin(which, first).next;
    var a, b := Review(s.path, s.head, name, params), Review(s.path, s.head, n, p);
    if Transcript(a) == Transcript(b) {
      SignedBytesDetermineTransaction(which, PacketsOf(first, name, params), a, which, PacketsOf(first, n, p), b);
    }
  }
}
