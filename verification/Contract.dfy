/**
 Initialising and updating a contract instance: src/handler/init_contract.c and
 src/handler/update_contract.c. Both stream a name and a parameter block of announced lengths.
 */
module Contract {
  import opened Bytes
  import opened DerivationPath
  import opened Options
  import opened Status
  import opened TxHash

  const ERROR_INVALID_NAME_LENGTH := 0x6B0A
  const ERROR_INVALID_PARAMS_LENGTH := 0x6B0B
  const CONTRACT_NAME_SIZE := 256
  const TOO_LONG: seq<byte> := [
    40, 116, 111, 111, 32, 108, 111, 110, 103, 32, 116, 111, 32, 100, 105, 115, 112, 108, 97, 121, 32,
    45, 32, 115, 101, 101, 32, 104, 97, 115, 104, 41]

  datatype Which = InitContract | UpdateContract
  {
    function Kind(): byte {
      if InitContract? then 1 else 2
    }

    /** The amount and the module reference, or the amount, the index and the sub-index. */
    function FixedFields(): nat {
      if InitContract? then 40 else 24
    }
  }

  datatype Packet = Packet(p1: uint8, cdata: Data)

  /**
   How far a flow has come. `Stale` is a wiped context met by a packet that is not the first
   of its flow; a review is final, the host has nothing more to send.
   */
  datatype State =
    | Fresh
    | Stale
    | NameFirst(path: Path, head: seq<byte>)
    | NameNext(path: Path, head: seq<byte>, nameLength: nat, name: seq<byte>)
    | ParamsFirst(path: Path, head: seq<byte>, name: seq<byte>)
    | ParamsNext(path: Path, head: seq<byte>, name: seq<byte>, paramsLength: nat, params: seq<byte>)
    | Review(path: Path, head: seq<byte>, name: seq<byte>, params: seq<byte>)

  datatype Result = Result(next: State, reply: Reply)

  /** The initial packet; bytes behind the fixed fields are ignored. */
  function Begin(which: Which, cdata: seq<byte>): Result {
    match StartTransaction(cdata, which.Kind())
    case StartThrown(sw) => Result(Stale, Throw(sw))
    case Started(path, transcript, rest) =>
      if |rest| < which.FixedFields() then Result(Stale, Throw(SWO_INCORRECT_DATA))
      else Result(NameFirst(path, transcript + rest[..which.FixedFields()]), Ack)
  }

  /** More bytes of the name: all of them must be displayable. */
  function TakeName(path: Path, head: seq<byte>, nameLength: nat, name: seq<byte>, more: seq<byte>): Result {
    if |name| + |more| > nameLength then Result(Stale, Throw(ERROR_INVALID_NAME_LENGTH))
    else if !DisplayableText(more) then Result(Stale, Refuse(ERROR_INVALID_TRANSACTION))
    else if |name| + |more| == nameLength then Result(ParamsFirst(path, head, name + more), Ack)
    else Result(NameNext(path, head, nameLength, name + more), Ack)
  }

  function TakeParams(path: Path, head: seq<byte>, name: seq<byte>, paramsLength: nat, params: seq<byte>,
                      more: seq<byte>): Result
  {
    if |params| + |more| > paramsLength then Result(Stale, Throw(ERROR_INVALID_PARAMS_LENGTH))
    else if |params| + |more| == paramsLength then Result(Review(path, head, name, params + more), Sign)
    else Result(ParamsNext(path, head, name, paramsLength, params + more), Ack)
  }

  /** handle_init_contract and handle_update_contract */
  function Step(which: Which, s: State, p: Packet): Result {
    if p.p1 == 0 && s.Fresh? then Begin(which, p.cdata)
    else if p.p1 == 1 then
      match s
      case NameFirst(path, head) =>
        if |p.cdata| < 2 then Result(Stale, Throw(SWO_INCORRECT_DATA))
        else TakeName(path, head, FromBe(p.cdata[..2]), [], p.cdata[2..])
      case NameNext(path, head, nameLength, name) => TakeName(path, head, nameLength, name, p.cdata)
      case _ => Result(Stale, Throw(ERROR_INVALID_NAME_LENGTH))
    else if p.p1 == 2 then
      match s
      case ParamsFirst(path, head, name) =>
        if |p.cdata| < 2 then Result(Stale, Throw(SWO_INCORRECT_DATA))
        else TakeParams(path, head, name, FromBe(p.cdata[..2]), [], p.cdata[2..])
      case ParamsNext(path, head, name, paramsLength, params) =>
        TakeParams(path, head, name, paramsLength, params, p.cdata)
      case _ => Result(Stale, Throw(ERROR_INVALID_PARAMS_LENGTH))
    else Result(Stale, Throw(ERROR_INVALID_STATE))
  }

  /** Where the packets lead if every one of them is accepted. */
  function Run(which: Which, s: State, packets: seq<Packet>): Option<State>
    decreases |packets|
  {
    if packets == [] then Some(s)
    else
      var r := Step(which, s, packets[0]);
      if r.reply.Open() then Run(which, r.next, packets[1..]) else None
  }

  lemma RunStep(which: Which, s: State, p: Packet, rest: seq<Packet>)
    requires Step(which, s, p).reply.Open()
    ensures Run(which, s, [p] + rest) == Run(which, Step(which, s, p).next, rest)
  {
    assert ([p] + rest)[1..] == rest;
  }

  // ---- What a flow signs and shows ----

  /** A field preceded by its two-byte length, as the chain serialises it. */
  function Sized(s: seq<byte>): seq<byte> {
    ToBe(|s|, 2) + s
  }

  /** The bytes the transaction hash has absorbed. */
  function Transcript(s: State): seq<byte> {
    match s
    case Fresh => []
    case Stale => []
    case NameFirst(_, head) => head
    case NameNext(_, head, nameLength, name) => head + (ToBe(nameLength, 2) + name)
    case ParamsFirst(_, head, name) => head + Sized(name)
    case ParamsNext(_, head, name, paramsLength, params) => head + Sized(name) + (ToBe(paramsLength, 2) + params)
    case Review(_, head, name, params) => head + Sized(name) + Sized(params)
  }

  /** The bytes the displayed digest has absorbed. */
  function Digested(s: State): seq<byte> {
    match s
    case NameNext(_, _, _, name) => name
    case ParamsFirst(_, _, name) => name
    case ParamsNext(_, _, name, _, params) => name + params
    case Review(_, _, name, params) => name + params
    case _ => []
  }

  /** The row that shows the name: the name itself, or a marker that replaces it whole. */
  function NameRow(name: seq<byte>): seq<byte> {
    if |name| < CONTRACT_NAME_SIZE then name else TOO_LONG
  }

  // ---- Which packets reach the review ----

  function Packets(p1: uint8, chunks: seq<Data>): (r: seq<Packet>)
    ensures |r| == |chunks| && forall i :: 0 <= i < |r| ==> r[i] == Packet(p1, chunks[i])
  {
    seq(|chunks|, i requires 0 <= i < |chunks| => Packet(p1, chunks[i]))
  }

  /** `chunks` carry `field` behind its length; only the length itself must not be split. */
  predicate Carries(chunks: seq<Data>, field: seq<byte>) {
    && chunks != [] && |chunks[0]| >= 2
    && |field| <= UINT16_MAX && Flatten(chunks) == Sized(field)
  }

  /** `packets` are an initial packet, then the name, then the parameters, in any chunks. */
  predicate Presents(which: Which, packets: seq<Packet>, first: Data, names: seq<Data>, params: seq<Data>,
                     s: State)
    requires s.Review?
  {
    && packets == [Packet(0, first)] + Packets(1, names) + Packets(2, params)
    && Begin(which, first).next == NameFirst(s.path, s.head)
    && Carries(names, s.name) && DisplayableText(s.name) && Carries(params, s.params)
  }

  lemma FlattenOne(chunk: seq<byte>, rest: seq<seq<byte>>)
    ensures Flatten([chunk] + rest) == chunk + Flatten(rest)
  {
    assert ([chunk] + rest)[1..] == rest;
  }

  lemma SizedParts(s: seq<byte>)
    requires |s| <= UINT16_MAX
    ensures |Sized(s)| == 2 + |s| && FromBe(Sized(s)[..2]) == |s| && Sized(s)[2..] == s
  {
    Pow256Values();
    FromBeToBe(|s|, 2);
    assert Sized(s)[..2] == ToBe(|s|, 2);
  }

  lemma SizedFromBytes(bytes: seq<byte>)
    requires |bytes| >= 2 && |bytes| - 2 == FromBe(bytes[..2])
    ensures Sized(bytes[2..]) == bytes && |bytes[2..]| <= UINT16_MAX
  {
    Pow256Values();
    ToBeFromBe(bytes[..2]);
  }

  // ---- Completeness: every presentation is accepted ----

  lemma PacketsTail(p1: uint8, chunks: seq<Data>)
    requires chunks != []
    ensures Packets(p1, chunks) == [Packet(p1, chunks[0])] + Packets(p1, chunks[1..])
  {
  }

  lemma FlattenEmpty(chunks: seq<Data>)
    requires Flatten(chunks) == []
    ensures chunks == []
  {
  }

  lemma {:induction false} ParamsRun(which: Which, s: State, chunks: seq<Data>)
    requires s.ParamsNext? && |s.params| < s.paramsLength == |s.params| + |Flatten(chunks)|
    ensures Run(which, s, Packets(2, chunks)) == Some(Review(s.path, s.head, s.name, s.params + Flatten(chunks)))
    decreases |chunks|
  {
    hide Packets, FromBe;
    PacketsTail(2, chunks);
    var next := Step(which, s, Packet(2, chunks[0])).next;
    RunStep(which, s, Packet(2, chunks[0]), Packets(2, chunks[1..]));
    assert s.params + chunks[0] + Flatten(chunks[1..]) == s.params + Flatten(chunks);
    assert |Flatten(chunks)| == |chunks[0]| + |Flatten(chunks[1..])|;
    if next.Review? {
      FlattenEmpty(chunks[1..]);
      PacketsOfNone(2);
      assert next == Review(s.path, s.head, s.name, s.params + Flatten(chunks));
    } else {
      ParamsRun(which, next, chunks[1..]);
    }
  }

  lemma ParamsRunFromFirst(which: Which, s: State, chunks: seq<Data>, params: seq<byte>)
    requires s.ParamsFirst? && Carries(chunks, params)
    ensures Run(which, s, Packets(2, chunks)) == Some(Review(s.path, s.head, s.name, params))
  {
    hide Packets;
    SizedParts(params);
    PacketsTail(2, chunks);
    var more := chunks[0][2..];
    assert chunks[0] + Flatten(chunks[1..]) == Sized(params);
    assert chunks[0][..2] == Sized(params)[..2] && more + Flatten(chunks[1..]) == Sized(params)[2..];
    var next := Step(which, s, Packet(2, chunks[0])).next;
    assert [] + more == more;
    RunStep(which, s, Packet(2, chunks[0]), Packets(2, chunks[1..]));
    if next.Review? {
      FlattenEmpty(chunks[1..]);
      PacketsOfNone(2);
      assert next == Review(s.path, s.head, s.name, params);
    } else {
      ParamsRun(which, next, chunks[1..]);
    }
  }

  lemma {:induction false} NamesRun(which: Which, s: State, chunks: seq<Data>, rest: seq<Packet>)
    requires s.NameNext? && |s.name| < s.nameLength == |s.name| + |Flatten(chunks)| && DisplayableText(Flatten(chunks))
    ensures Run(which, s, Packets(1, chunks) + rest)
         == Run(which, ParamsFirst(s.path, s.head, s.name + Flatten(chunks)), rest)
    decreases |chunks|
  {
    hide Packets;
    PacketsTail(1, chunks);
    var p := Packet(1, chunks[0]);
    assert Packets(1, chunks) + rest == [p] + (Packets(1, chunks[1..]) + rest);
    DisplayableParts(chunks[0], Flatten(chunks[1..]));
    var next := Step(which, s, p).next;
    RunStep(which, s, p, Packets(1, chunks[1..]) + rest);
    assert s.name + chunks[0] + Flatten(chunks[1..]) == s.name + Flatten(chunks);
    assert |Flatten(chunks)| == |chunks[0]| + |Flatten(chunks[1..])|;
    if next.ParamsFirst? {
      FlattenEmpty(chunks[1..]);
      PacketsOfNone(1);
      assert [] + rest == rest;
      assert next == ParamsFirst(s.path, s.head, s.name + Flatten(chunks));
    } else {
      NamesRun(which, next, chunks[1..], rest);
    }
  }

  lemma PacketsOfNone(p1: uint8)
    ensures Packets(p1, []) == []
  {
  }

  lemma NamesRunFromFirst(which: Which, s: State, chunks: seq<Data>, name: seq<byte>, rest: seq<Packet>)
    requires s.NameFirst? && Carries(chunks, name) && DisplayableText(name)
    ensures Run(which, s, Packets(1, chunks) + rest) == Run(which, ParamsFirst(s.path, s.head, name), rest)
  {
    hide Packets, FromBe, Run, DisplayableText;
    SizedParts(name);
    PacketsTail(1, chunks);
    var p := Packet(1, chunks[0]);
    assert Packets(1, chunks) + rest == [p] + (Packets(1, chunks[1..]) + rest);
    var more := chunks[0][2..];
    assert chunks[0] + Flatten(chunks[1..]) == Sized(name);
    assert chunks[0][..2] == Sized(name)[..2] && more + Flatten(chunks[1..]) == name;
    DisplayableParts(more, Flatten(chunks[1..]));
    var next := Step(which, s, p).next;
    RunStep(which, s, p, Packets(1, chunks[1..]) + rest);
    assert [] + more == more;
    if next.ParamsFirst? {
      FlattenEmpty(chunks[1..]);
      PacketsOfNone(1);
      assert [] + rest == rest;
      assert next == ParamsFirst(s.path, s.head, name);
    } else {
      NamesRun(which, next, chunks[1..], rest);
    }
  }

  // ---- Soundness: nothing else is accepted ----

  lemma PrependChunk(p1: uint8, chunk: Data, chunks: seq<Data>)
    ensures Packets(p1, [chunk] + chunks) == [Packet(p1, chunk)] + Packets(p1, chunks)
    ensures Flatten([chunk] + chunks) == chunk + Flatten(chunks)
  {
    FlattenOne(chunk, chunks);
  }

  lemma CarriesFromParts(chunk: Data, chunks: seq<Data>, field: seq<byte>)
    requires |chunk| >= 2 && field == chunk[2..] + Flatten(chunks) && FromBe(chunk[..2]) == |field|
    ensures Carries([chunk] + chunks, field)
  {
    hide FromBe, ToBe, Sized;
    var bytes := chunk + Flatten(chunks);
    assert bytes[..2] == chunk[..2] && bytes[2..] == field;
    SizedFromBytes(bytes);
    FlattenOne(chunk, chunks);
  }

  /** A run that ends elsewhere than it starts begins with an accepted packet. */
  lemma RunFirst(which: Which, s: State, packets: seq<Packet>, t: State)
    requires Run(which, s, packets) == Some(t) && s != t
    ensures packets != [] && Step(which, s, packets[0]).reply.Open()
    ensures Run(which, Step(which, s, packets[0]).next, packets[1..]) == Some(t)
    ensures packets == [packets[0]] + packets[1..]
  {
  }

  /** After the review nothing is accepted. */
  lemma NothingAfterReview(which: Which, s: State, packets: seq<Packet>, t: State)
    requires s.Review? && Run(which, s, packets) == Some(t)
    ensures packets == [] && s == t
  {
  }

  lemma {:induction false} ParamsParsed(which: Which, s: State, packets: seq<Packet>, t: State) returns (chunks: seq<Data>)
    requires s.ParamsNext? && t.Review? && Run(which, s, packets) == Some(t) && |s.params| < s.paramsLength
    ensures packets == Packets(2, chunks) && s.path == t.path && s.head == t.head && s.name == t.name
    ensures t.params == s.params + Flatten(chunks) && |t.params| == s.paramsLength
    decreases |packets|
  {
    hide Packets;
    var p, r := packets[0], Step(which, s, packets[0]);
    if r.next.Review? {
      NothingAfterReview(which, r.next, packets[1..], t);
      chunks := [];
    } else {
      chunks := ParamsParsed(which, r.next, packets[1..], t);
    }
    PacketsOfNone(2);
    PrependChunk(2, p.cdata, chunks);
    assert s.params + p.cdata + Flatten(chunks) == s.params + (p.cdata + Flatten(chunks));
    assert packets == [p] + packets[1..];
    chunks := [p.cdata] + chunks;
  }

  lemma ParamsParsedFromFirst(which: Which, s: State, packets: seq<Packet>, t: State) returns (chunks: seq<Data>)
    requires s.ParamsFirst? && t.Review? && Run(which, s, packets) == Some(t)
    ensures packets == Packets(2, chunks) && s.path == t.path && s.head == t.head && s.name == t.name
    ensures Carries(chunks, t.params)
  {
    hide Packets, FromBe, Carries, Run;
    RunFirst(which, s, packets, t);
    var p, r := packets[0], Step(which, s, packets[0]);
    var more := p.cdata[2..];
    assert [] + more == more;
    if r.next.Review? {
      NothingAfterReview(which, r.next, packets[1..], t);
      chunks := [];
    } else {
      chunks := ParamsParsed(which, r.next, packets[1..], t);
    }
    PacketsOfNone(2);
    PrependChunk(2, p.cdata, chunks);
    CarriesFromParts(p.cdata, chunks, t.params);
    chunks := [p.cdata] + chunks;
  }

  lemma {:induction false} NamesParsed(which: Which, s: State, packets: seq<Packet>, t: State)
    returns (chunks: seq<Data>, rest: seq<Packet>)
    requires s.NameNext? && t.Review? && Run(which, s, packets) == Some(t) && |s.name| < s.nameLength
    ensures packets == Packets(1, chunks) + rest && s.path == t.path && s.head == t.head
    ensures t.name == s.name + Flatten(chunks) && |t.name| == s.nameLength && DisplayableText(Flatten(chunks))
    ensures Run(which, ParamsFirst(t.path, t.head, t.name), rest) == Some(t)
    decreases |packets|
  {
    hide Packets, FromBe;
    var p, r := packets[0], Step(which, s, packets[0]);
    if r.next.ParamsFirst? {
      chunks, rest := [], packets[1..];
      var _ := ParamsParsedFromFirst(which, r.next, rest, t);
    } else {
      chunks, rest := NamesParsed(which, r.next, packets[1..], t);
    }
    PacketsOfNone(1);
    PrependChunk(1, p.cdata, chunks);
    DisplayableParts(p.cdata, Flatten(chunks));
    assert s.name + p.cdata + Flatten(chunks) == s.name + (p.cdata + Flatten(chunks));
    assert packets == [p] + packets[1..];
    chunks := [p.cdata] + chunks;
  }

  lemma NamesParsedFromFirst(which: Which, s: State, packets: seq<Packet>, t: State)
    returns (chunks: seq<Data>, rest: seq<Packet>)
    requires s.NameFirst? && t.Review? && Run(which, s, packets) == Some(t)
    ensures packets == Packets(1, chunks) + rest && s.path == t.path && s.head == t.head
    ensures Carries(chunks, t.name) && DisplayableText(t.name)
    ensures Run(which, ParamsFirst(t.path, t.head, t.name), rest) == Some(t)
  {
    hide Packets, FromBe, Carries, DisplayableText, Run;
    RunFirst(which, s, packets, t);
    var p, r := packets[0], Step(which, s, packets[0]);
    var more := p.cdata[2..];
    assert [] + more == more;
    if r.next.ParamsFirst? {
      chunks, rest := [], packets[1..];
      var _ := ParamsParsedFromFirst(which, r.next, rest, t);
    } else {
      chunks, rest := NamesParsed(which, r.next, packets[1..], t);
    }
    PacketsOfNone(1);
    PrependChunk(1, p.cdata, chunks);
    DisplayableParts(more, Flatten(chunks));
    CarriesFromParts(p.cdata, chunks, t.name);
    chunks := [p.cdata] + chunks;
  }

  /**
   The review of a name and parameters is reached by exactly the packets that present them, in
   whatever chunks; Transcript then is the one serialisation of the transaction.
   */
  lemma ReviewIffPresented(which: Which, packets: seq<Packet>, s: State)
    requires s.Review?
    ensures Run(which, Fresh, packets) == Some(s)
       <==> exists first, names, params :: Presents(which, packets, first, names, params, s)
  {
    hide Packets, Carries, FromBe, TakeName, TakeParams, DisplayableText;
    if Run(which, Fresh, packets) == Some(s) {
      var p, r := packets[0], Step(which, Fresh, packets[0]);
      var names, rest := NamesParsedFromFirst(which, r.next, packets[1..], s);
      var params := ParamsParsedFromFirst(which, ParamsFirst(s.path, s.head, s.name), rest, s);
      assert packets == [Packet(0, p.cdata)] + Packets(1, names) + Packets(2, params);
      assert Presents(which, packets, p.cdata, names, params, s);
    }
    if first: Data, names: seq<Data>, params: seq<Data> :| Presents(which, packets, first, names, params, s) {
      assert packets[1..] == Packets(1, names) + Packets(2, params);
      NamesRunFromFirst(which, NameFirst(s.path, s.head), names, s.name, Packets(2, params));
      ParamsRunFromFirst(which, ParamsFirst(s.path, s.head, s.name), params, s.params);
    }
  }

  // ---- What the signature and the review pin down ----

  lemma BeginFixesHead(which: Which, cdata: seq<byte>)
    requires Begin(which, cdata).reply.Open()
    ensures var s := Begin(which, cdata).next;
      && s.NameFirst? && |s.head| == ACCOUNT_TRANSACTION_HEADER_LENGTH + 1 + which.FixedFields()
      && s.head[ACCOUNT_TRANSACTION_HEADER_LENGTH] == which.Kind()
  {
    hide FromBe;
  }

  lemma ReviewedHead(which: Which, packets: seq<Packet>, s: State)
    requires s.Review? && Run(which, Fresh, packets) == Some(s)
    ensures |s.head| == ACCOUNT_TRANSACTION_HEADER_LENGTH + 1 + which.FixedFields()
    ensures s.head[ACCOUNT_TRANSACTION_HEADER_LENGTH] == which.Kind()
    ensures |s.name| <= UINT16_MAX && |s.params| <= UINT16_MAX
  {
    hide Packets, Run, Begin;
    ReviewIffPresented(which, packets, s);
    var first: Data, names: seq<Data>, params: seq<Data> :| Presents(which, packets, first, names, params, s);
    assert Begin(which, first).reply.Open() by { BeginOpens(which, first); }
    BeginFixesHead(which, first);
  }

  lemma BeginOpens(which: Which, cdata: seq<byte>)
    ensures Begin(which, cdata).next.NameFirst? ==> Begin(which, cdata).reply.Open()
  {
  }

  /** The signed bytes of two reviewed flows, of either instruction, are equal only if the transactions are. */
  lemma SignedBytesDetermineTransaction(w1: Which, p1: seq<Packet>, s: State, w2: Which, p2: seq<Packet>, t: State)
    requires s.Review? && Run(w1, Fresh, p1) == Some(s)
    requires t.Review? && Run(w2, Fresh, p2) == Some(t)
    requires Transcript(s) == Transcript(t)
    ensures w1 == w2 && s.head == t.head && s.name == t.name && s.params == t.params
  {
    hide Run, FromBe, ToBe, Sized;
    ReviewedHead(w1, p1, s);
    ReviewedHead(w2, p2, t);
    var bytes := Transcript(s);
    assert bytes[ACCOUNT_TRANSACTION_HEADER_LENGTH] == w1.Kind() == w2.Kind();
    assert s.head == bytes[..|s.head|] == t.head;
    SameFields(s.name, s.params, t.name, t.params, bytes[|s.head|..]);
  }

  lemma SameFields(a: seq<byte>, b: seq<byte>, c: seq<byte>, d: seq<byte>, bytes: seq<byte>)
    requires |a| <= UINT16_MAX && |b| <= UINT16_MAX && |c| <= UINT16_MAX && |d| <= UINT16_MAX
    requires bytes == Sized(a) + Sized(b) == Sized(c) + Sized(d)
    ensures a == c && b == d
  {
    SizedParts(a);
    SizedParts(b);
    SizedParts(c);
    SizedParts(d);
    assert Sized(a)[..2] == bytes[..2] == Sized(c)[..2];
    assert Sized(a) == bytes[..2 + |a|] == Sized(c);
    assert Sized(b) == bytes[2 + |a|..] == Sized(d);
  }
}
