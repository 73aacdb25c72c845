/** src/helpers/tx_hash.c: the start every account transaction shares, and the replies of a handler. */
module TxHash {
  import opened Bytes
  import opened DerivationPath
  import opened Status

  const ACCOUNT_TRANSACTION_HEADER_LENGTH := 60
  const ACCOUNT_ADDRESS_LENGTH := 32

  /**
   The path that signs, what the transaction hash has absorbed (the header and the kind byte),
   and the command data behind them.
   */
  datatype Start = Started(path: Path, transcript: seq<byte>, rest: seq<byte>) | StartThrown(sw: int)

  /** parse_derivation_path, cx_sha256_init and hashAccountTransactionHeaderAndKind, in that order. */
  function StartTransaction(cdata: seq<byte>, kind: byte): (s: Start)
    ensures s.Started? ==>
              |s.transcript| == ACCOUNT_TRANSACTION_HEADER_LENGTH + 1 && s.transcript[ACCOUNT_TRANSACTION_HEADER_LENGTH] == kind
  {
    match ParsePath(cdata)
    case PathThrown(sw) => StartThrown(sw)
    case ParsedPath(path, consumed) =>
      var header := cdata[consumed..];
      if |header| < ACCOUNT_TRANSACTION_HEADER_LENGTH + 1 || header[ACCOUNT_TRANSACTION_HEADER_LENGTH] != kind then
        StartThrown(ERROR_INVALID_TRANSACTION)
      else
        Started(path, header[..ACCOUNT_TRANSACTION_HEADER_LENGTH + 1], header[ACCOUNT_TRANSACTION_HEADER_LENGTH + 1..])
  }

  /**
   The start succeeds exactly when the data is a path that may sign, a header, the expected kind
   and the rest; then the hash has absorbed the header and the kind as they were sent, and the path
   is the one the data spells.
   */
  lemma StartIff(cdata: seq<byte>, kind: byte, path: Path, transcript: seq<byte>, rest: seq<byte>)
    ensures StartTransaction(cdata, kind) == Started(path, transcript, rest)
       <==> && SignsAt(cdata, path) && cdata == cdata[..1 + 4 * |path.nodes|] + transcript + rest
            && |transcript| == 61 && transcript[60] == kind
    ensures SignsAt(cdata, path) ==> forall i :: 0 <= i < |path.nodes| ==>
              path.nodes[i] == 0x8000_0000 + FromBe(cdata[1 + 4 * i..5 + 4 * i]) % 0x8000_0000
  {
    var p := ParsePath(cdata);
    if p.ParsedPath? {
      ParsedIff(cdata, p.path, p.consumed);
      ParsedIff(cdata, path, p.consumed);
    } else {
      ParsedIff(cdata, path, 1 + 4 * |path.nodes|);
    }
    hide ParsePath, SignsAt;
    if StartTransaction(cdata, kind) == Started(path, transcript, rest) {
      var n := p.consumed;
      assert cdata[n..] == transcript + rest;
      assert cdata == cdata[..n] + cdata[n..];
    }
    if SignsAt(cdata, path) && cdata == cdata[..1 + 4 * |path.nodes|] + transcript + rest {
      assert cdata[1 + 4 * |path.nodes|..] == transcript + rest;
    }
  }

  /** The two status words it can throw, and when. */
  lemma StartThrows(cdata: seq<byte>, kind: byte)
    ensures StartTransaction(cdata, kind).StartThrown? ==>
              StartTransaction(cdata, kind).sw
              == if ParsePath(cdata).PathThrown? then ERROR_INVALID_PATH else ERROR_INVALID_TRANSACTION
  {
  }

  /**
   How a handler answers a packet: success, a review screen (the last one offers to sign), a
   refusal that releases the instruction, or a thrown status word, on which the dispatch guard
   wipes the context and releases the instruction.
   */
  datatype Reply = Ack | Continue | Sign | Refuse(sw: int) | Throw(sw: int)
  {
    /** The flow goes on: a later packet can continue it. */
    predicate Open() {
      Ack? || Continue? || Sign?
    }
  }
}
