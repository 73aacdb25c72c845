/**
 Configuring a validator: src/handler/sign_configure_baker.c. Nine optional fields, announced by a
 bitmap, arrive in stages; every review parks the flow until the user accepts it.
 */
module Baker {
  import opened Bytes
  import opened DerivationPath
  import opened Options
  import opened Status
  import opened TxHash

  const KIND_CONFIGURE_BAKER: byte := 25
  const MAX_URL_LENGTH := 2048
  const MAX_RATE := 100000
  const KEYS_LENGTH := 192
  const AGGREGATION_LENGTH := 160

  datatype Flags = Flags(capital: bool, restake: bool, open: bool, keys: bool, url: bool,
                         fee: bool, reward: bool, finalization: bool, suspended: bool)
  {
    predicate AnyRate() {
      fee || reward || finalization
    }

    predicate AnyFirst() {
      capital || restake || open || keys
    }

    /** The bitmap, least significant bit first. */
    function Bitmap(): nat {
      Join(capital, Join(restake, Join(open, Join(keys, Join(url,
        Join(fee, Join(reward, Join(finalization, Join(suspended, 0)))))))))
    }
  }

  function Join(lowest: bool, rest: nat): nat {
    (if lowest then 1 else 0) + 2 * rest
  }

  /** `b >> k` */
  function Shr(b: nat, k: nat): nat {
    if k == 0 then b else Shr(b, k - 1) / 2
  }

  predicate BitAt(b: nat, k: nat) {
    Shr(b, k) % 2 == 1
  }

  function FlagsOfBitmap(b: nat): Flags {
    Flags(BitAt(b, 0), BitAt(b, 1), BitAt(b, 2), BitAt(b, 3), BitAt(b, 4), BitAt(b, 5), BitAt(b, 6), BitAt(b, 7), BitAt(b, 8))
  }

  /** The flags of a bitmap, bit by bit. */
  lemma BitmapBits(b: nat)
    ensures var f := FlagsOfBitmap(b);
      && (f.capital <==> b % 2 == 1) && (f.restake <==> b / 2 % 2 == 1) && (f.open <==> b / 4 % 2 == 1)
      && (f.keys <==> b / 8 % 2 == 1) && (f.url <==> b / 16 % 2 == 1) && (f.fee <==> b / 32 % 2 == 1)
      && (f.reward <==> b / 64 % 2 == 1) && (f.finalization <==> b / 128 % 2 == 1) && (f.suspended <==> b / 256 % 2 == 1)
  {
    assert Shr(b, 1) == b / 2 && Shr(b, 2) == b / 4 && Shr(b, 3) == b / 8 && Shr(b, 4) == b / 16;
    assert Shr(b, 5) == b / 32 && Shr(b, 6) == b / 64 && Shr(b, 7) == b / 128 && Shr(b, 8) == b / 256;
  }

  lemma FlagsRoundTrip(f: Flags)
    ensures FlagsOfBitmap(f.Bitmap()) == f && f.Bitmap() < 512
  {
    hide Join, Shr, BitAt;
    var n8 := Join(f.suspended, 0);
    var n7 := Join(f.finalization, n8);
    var n6 := Join(f.reward, n7);
    var n5 := Join(f.fee, n6);
    var n4 := Join(f.url, n5);
    var n3 := Join(f.keys, n4);
    var n2 := Join(f.open, n3);
    var n1 := Join(f.restake, n2);
    var n := Join(f.capital, n1);
    assert Shr(n, 0) == n by { NoShift(n); }
    LowestBit(n, 0, f.capital, n1, 256);
    LowestBit(n, 1, f.restake, n2, 128);
    LowestBit(n, 2, f.open, n3, 64);
    LowestBit(n, 3, f.keys, n4, 32);
    LowestBit(n, 4, f.url, n5, 16);
    LowestBit(n, 5, f.fee, n6, 8);
    LowestBit(n, 6, f.reward, n7, 4);
    LowestBit(n, 7, f.finalization, n8, 2);
    LowestBit(n, 8, f.suspended, 0, 1);
  }

  lemma NoShift(n: nat)
    ensures Shr(n, 0) == n
  {
  }

  lemma LowestBit(n: nat, k: nat, b: bool, rest: nat, bound: nat)
    requires Shr(n, k) == Join(b, rest)
    ensures BitAt(n, k) == b && Shr(n, k + 1) == rest
    ensures rest < bound ==> Join(b, rest) < 2 * bound
  {
  }

  lemma BitmapRoundTrip(b: nat)
    requires b < 512
    ensures FlagsOfBitmap(b).Bitmap() == b
  {
    hide Join, Shr, BitAt;
    assert Shr(b, 0) == b by { NoShift(b); }
    Rebuild(b, 0, 256);
    Rebuild(b, 1, 128);
    Rebuild(b, 2, 64);
    Rebuild(b, 3, 32);
    Rebuild(b, 4, 16);
    Rebuild(b, 5, 8);
    Rebuild(b, 6, 4);
    Rebuild(b, 7, 2);
    Rebuild(b, 8, 1);
  }

  lemma Rebuild(b: nat, k: nat, bound: nat)
    ensures Shr(b, k) == Join(BitAt(b, k), Shr(b, k + 1))
    ensures Shr(b, k) < 2 * bound ==> Shr(b, k + 1) < bound
  {
  }

  type Field = Option<seq<byte>>

  /** The fields as the chain carries them; the keys come in two packets, with their proofs. */
  datatype Config = Config(capital: Field, restake: Field, open: Field, keys: Field, aggregation: Field, url: Field,
                           fee: Field, reward: Field, finalization: Field, suspended: Field)

  const NOTHING := Config(None, None, None, None, None, None, None, None, None, None)

  function FlagsOf(c: Config): Flags {
    Flags(c.capital.Some?, c.restake.Some?, c.open.Some?, c.keys.Some?, c.url.Some?,
          c.fee.Some?, c.reward.Some?, c.finalization.Some?, c.suspended.Some?)
  }

  // ---- What a configuration is, and how it is serialised ----

  predicate Length(f: Field, n: nat) {
    f.Some? ==> |f.value| == n
  }

  predicate Choice(f: Field, n: nat) {
    f.Some? ==> |f.value| == 1 && f.value[0] < n
  }

  predicate Rate(f: Field) {
    f.Some? ==> |f.value| == 4 && FromBe(f.value) <= MAX_RATE
  }

  predicate ValidConfig(c: Config) {
    && Length(c.capital, 8) && Choice(c.restake, 2) && Choice(c.open, 3)
    && Length(c.keys, KEYS_LENGTH) && Length(c.aggregation, AGGREGATION_LENGTH)
    && (c.url.Some? ==> |c.url.value| <= MAX_URL_LENGTH && DisplayableText(c.url.value))
    && Rate(c.fee) && Rate(c.reward) && Rate(c.finalization) && Choice(c.suspended, 2)
  }

  function Raw(f: Field): seq<byte> {
    if f.Some? then f.value else []
  }

  function First(c: Config): seq<byte> {
    Raw(c.capital) + Raw(c.restake) + Raw(c.open) + Raw(c.keys)
  }

  /** The URL behind its length; `left` of its bytes are still to come. */
  function Url(f: Field, left: nat): seq<byte> {
    if f.Some? then ToBe(|f.value| + left, 2) + f.value else []
  }

  function Rates(c: Config): seq<byte> {
    Raw(c.fee) + Raw(c.reward) + Raw(c.finalization)
  }

  function Body(c: Config, urlLeft: nat): seq<byte> {
    First(c) + Raw(c.aggregation) + Url(c.url, urlLeft) + Rates(c) + Raw(c.suspended)
  }

  function BitmapBytes(f: Flags): seq<byte> {
    ToBe(f.Bitmap(), 2)
  }

  /** The payload: the bitmap, then every declared field once, in order. */
  function Serialize(c: Config): seq<byte> {
    BitmapBytes(FlagsOf(c)) + Body(c, 0)
  }

  lemma SplitRaw(a: Field, b: Field, x: seq<byte>, y: seq<byte>, n: nat)
    requires a.Some? == b.Some? && Length(a, n) && Length(b, n) && Raw(a) + x == Raw(b) + y
    ensures a == b && x == y
  {
    var k := |Raw(a)|;
    assert Raw(a) == (Raw(a) + x)[..k] == (Raw(b) + y)[..k] == Raw(b);
    assert x == (Raw(a) + x)[k..] == (Raw(b) + y)[k..] == y;
  }

  lemma SplitUrl(a: Field, b: Field, x: seq<byte>, y: seq<byte>)
    requires a.Some? == b.Some? && Url(a, 0) + x == Url(b, 0) + y
    requires a.Some? ==> |a.value| <= MAX_URL_LENGTH && |b.value| <= MAX_URL_LENGTH
    ensures a == b && x == y
  {
    if a.Some? {
      hide ToBe;
      var m, n := ToBe(|a.value|, 2), ToBe(|b.value|, 2);
      var whole := Url(a, 0) + x;
      assert m == whole[..2] && n == whole[..2];
      Pow256Values();
      ToBeInjective(|a.value|, |b.value|, 2);
      var k := |a.value| + 2;
      assert a.value == whole[2..k] == b.value;
      assert x == whole[k..] == y;
    } else {
      assert [] + x == x && [] + y == y;
    }
  }

  lemma BodyInOrder(c: Config)
    ensures Body(c, 0) == Raw(c.capital) + (Raw(c.restake) + (Raw(c.open) + (Raw(c.keys) + (Raw(c.aggregation)
      + (Url(c.url, 0) + (Raw(c.fee) + (Raw(c.reward) + (Raw(c.finalization) + (Raw(c.suspended) + [])))))))))
  {
    hide Raw, Url;
    assert Raw(c.suspended) + [] == Raw(c.suspended);
  }

  lemma BodyInjective(c: Config, d: Config)
    requires ValidConfig(c) && ValidConfig(d) && FlagsOf(c) == FlagsOf(d) && c.aggregation.Some? == d.aggregation.Some?
    requires Body(c, 0) == Body(d, 0)
    ensures c == d
  {
    hide Body, Raw, Url, DisplayableText, FromBe;
    BodyInOrder(c);
    BodyInOrder(d);
    var c9, d9 := Raw(c.suspended) + [], Raw(d.suspended) + [];
    var c8, d8 := Raw(c.finalization) + c9, Raw(d.finalization) + d9;
    var c7, d7 := Raw(c.reward) + c8, Raw(d.reward) + d8;
    var c6, d6 := Raw(c.fee) + c7, Raw(d.fee) + d7;
    var c5, d5 := Url(c.url, 0) + c6, Url(d.url, 0) + d6;
    var c4, d4 := Raw(c.aggregation) + c5, Raw(d.aggregation) + d5;
    var c3, d3 := Raw(c.keys) + c4, Raw(d.keys) + d4;
    var c2, d2 := Raw(c.open) + c3, Raw(d.open) + d3;
    SplitRaw(c.capital, d.capital, Raw(c.restake) + c2, Raw(d.restake) + d2, 8);
    SplitRaw(c.restake, d.restake, c2, d2, 1);
    SplitRaw(c.open, d.open, c3, d3, 1);
    SplitRaw(c.keys, d.keys, c4, d4, KEYS_LENGTH);
    SplitRaw(c.aggregation, d.aggregation, c5, d5, AGGREGATION_LENGTH);
    SplitUrl(c.url, d.url, c6, d6);
    SplitRaw(c.fee, d.fee, c7, d7, 4);
    SplitRaw(c.reward, d.reward, c8, d8, 4);
    SplitRaw(c.finalization, d.finalization, c9, d9, 4);
    SplitRaw(c.suspended, d.suspended, [], [], 1);
  }

  /** A payload is read back in one way. */
  lemma SerializeInjective(c: Config, d: Config)
    requires ValidConfig(c) && ValidConfig(d) && Serialize(c) == Serialize(d)
    requires c.keys.Some? == c.aggregation.Some? && d.keys.Some? == d.aggregation.Some?
    ensures c == d
  {
    hide ValidConfig, ToBe, Body;
    var whole := Serialize(c);
    assert BitmapBytes(FlagsOf(c)) == whole[..2] == BitmapBytes(FlagsOf(d));
    assert Body(c, 0) == whole[2..] == Body(d, 0);
    Pow256Values();
    ToBeInjective(FlagsOf(c).Bitmap(), FlagsOf(d).Bitmap(), 2);
    FlagsRoundTrip(FlagsOf(c));
    FlagsRoundTrip(FlagsOf(d));
    BodyInjective(c, d);
  }

  // ---- The machine ----

  datatype Stage = FirstBatch | Aggregation | UrlLength | UrlBytes | CommissionRates | Suspended | End

  /** The order of the stages. */
  function Rank(s: Stage): nat {
    match s
    case FirstBatch => 1
    case Aggregation => 2
    case UrlLength => 3
    case UrlBytes => 4
    case CommissionRates => 5
    case Suspended => 6
    case End => 7
  }

  function AfterRates(has: Flags): Stage {
    if has.suspended then Suspended else End
  }

  function AfterUrl(has: Flags): Stage {
    if has.AnyRate() then CommissionRates else AfterRates(has)
  }

  function AfterKeys(has: Flags): Stage {
    if has.url then UrlLength else AfterUrl(has)
  }

  /**
   `Initial` waits for the first packet and `Stale` is a wiped context. A live flow knows the
   stage it waits for, or with `parked` the stage it resumes at once the review is accepted.
   */
  datatype State =
    | Initial
    | Stale
    | Live(path: Path, head: seq<byte>, has: Flags, stage: Stage, parked: bool, got: Config, urlLeft: nat)

  datatype Result = Result(next: State, reply: Reply)

  datatype Packet = Packet(p1: uint8, cdata: seq<byte>)

  /** The bytes the transaction hash has absorbed. */
  function Transcript(s: State): seq<byte>
    requires s.Live?
  {
    s.head + BitmapBytes(s.has) + Body(s.got, s.urlLeft)
  }

  /** The bytes the displayed digest of the keys has absorbed: the three keys, none of the proofs. */
  function Digested(c: Config): seq<byte>
    requires Length(c.keys, KEYS_LENGTH) && Length(c.aggregation, AGGREGATION_LENGTH)
  {
    (if c.keys.Some? then c.keys.value[..32] + c.keys.value[96..128] else [])
    + (if c.aggregation.Some? then c.aggregation.value[..96] else [])
  }

  function Fail(sw: int): Result {
    Result(Stale, Throw(sw))
  }

  /** awaitConfigureBakerConfirm, and what the review offers. */
  function Park(s: State, next: Stage): Result
    requires s.Live?
  {
    Result(s.(parked := true, stage := next), if next.End? then Sign else Continue)
  }

  function Begin(cdata: seq<byte>): Result {
    match StartTransaction(cdata, KIND_CONFIGURE_BAKER)
    case StartThrown(sw) => Fail(sw)
    case Started(path, transcript, rest) =>
      if |rest| < 2 then Fail(SWO_INCORRECT_DATA)
      else if FromBe(rest[..2]) > 511 then Fail(ERROR_INVALID_TRANSACTION)
      else
        var has := FlagsOfBitmap(FromBe(rest[..2]));
        if has.AnyFirst() then Result(Live(path, transcript, has, FirstBatch, false, NOTHING, 0), Ack)
        else if AfterKeys(has).End? then Result(Initial, Ack)
        else Result(Live(path, transcript, has, AfterKeys(has), false, NOTHING, 0), Ack)
  }

  /** Cut `n` bytes off the front of `s` if the field is declared. */
  function Cut(declared: bool, n: nat, s: seq<byte>): (r: Option<(Field, seq<byte>)>)
    ensures r.Some? ==> Raw(r.value.0) + r.value.1 == s && r.value.0.Some? == declared && Length(r.value.0, n)
    ensures r.None? <==> declared && |s| < n
  {
    if !declared then Some((None, s))
    else if |s| < n then None
    else Some((Some(s[..n]), s[n..]))
  }

  /** Three declared fields cut off the front of a packet, or the status word of the first that is wrong. */
  datatype Cuts = Cuts(a: Field, b: Field, c: Field, rest: seq<byte>) | CutFailed(sw: int)

  function CutFirst(has: Flags, cdata: seq<byte>): (r: Cuts)
    ensures r.Cuts? ==> Choice(r.b, 2) && Choice(r.c, 3)
  {
    var capital := Cut(has.capital, 8, cdata);
    if capital.None? then CutFailed(SWO_INCORRECT_DATA)
    else
      var restake := Cut(has.restake, 1, capital.value.1);
      if restake.None? then CutFailed(SWO_INCORRECT_DATA)
      else if !Choice(restake.value.0, 2) then CutFailed(ERROR_INVALID_TRANSACTION)
      else
        var open := Cut(has.open, 1, restake.value.1);
        if open.None? then CutFailed(SWO_INCORRECT_DATA)
        else if !Choice(open.value.0, 3) then CutFailed(ERROR_INVALID_TRANSACTION)
        else Cuts(capital.value.0, restake.value.0, open.value.0, open.value.1)
  }

  function TakeFirst(s: State, cdata: seq<byte>): Result
    requires s.Live?
  {
    match CutFirst(s.has, cdata)
    case CutFailed(sw) => Fail(sw)
    case Cuts(capital, restake, open, rest) =>
      if |rest| != (if s.has.keys then KEYS_LENGTH else 0) then Fail(SWO_INCORRECT_DATA)
      else
        var got := s.got.(capital := capital, restake := restake, open := open);
        if s.has.keys then Result(s.(got := got.(keys := Some(rest)), stage := Aggregation), Ack)
        else Park(s.(got := got), AfterKeys(s.has))
  }

  function TakeAggregation(s: State, cdata: seq<byte>): Result
    requires s.Live?
  {
    if |cdata| != AGGREGATION_LENGTH then Fail(SWO_INCORRECT_DATA)
    else Park(s.(got := s.got.(aggregation := Some(cdata))), AfterKeys(s.has))
  }

  /** The announced length; bytes behind it are ignored. An empty URL is reviewed at once. */
  function TakeUrlLength(s: State, cdata: seq<byte>): Result
    requires s.Live?
  {
    if |cdata| < 2 then Fail(SWO_INCORRECT_DATA)
    else if FromBe(cdata[..2]) > MAX_URL_LENGTH then Fail(ERROR_INVALID_TRANSACTION)
    else
      var n := FromBe(cdata[..2]);
      var s' := s.(got := s.got.(url := Some([])), urlLeft := n);
      if n == 0 then Park(s', AfterUrl(s.has)) else Result(s'.(stage := UrlBytes), Ack)
  }

  function TakeUrl(s: State, cdata: seq<byte>): Result
    requires s.Live? && s.got.url.Some?
  {
    if |cdata| > s.urlLeft then Fail(SWO_INCORRECT_DATA)
    else if !DisplayableText(cdata) then Result(Stale, Refuse(ERROR_INVALID_TRANSACTION))
    else
      Park(s.(got := s.got.(url := Some(s.got.url.value + cdata)), urlLeft := s.urlLeft - |cdata|),
           if |cdata| == s.urlLeft then AfterUrl(s.has) else UrlBytes)
  }

  /** fraction_to_percentage_display refuses more than a whole. */
  function CutRates(has: Flags, cdata: seq<byte>): (r: Cuts)
    ensures r.Cuts? ==> Rate(r.a) && Rate(r.b) && Rate(r.c)
  {
    var fee := Cut(has.fee, 4, cdata);
    if fee.None? then CutFailed(SWO_INCORRECT_DATA)
    else if !Rate(fee.value.0) then CutFailed(ERROR_INVALID_TRANSACTION)
    else
      var reward := Cut(has.reward, 4, fee.value.1);
      if reward.None? then CutFailed(SWO_INCORRECT_DATA)
      else if !Rate(reward.value.0) then CutFailed(ERROR_INVALID_TRANSACTION)
      else
        var finalization := Cut(has.finalization, 4, reward.value.1);
        if finalization.None? then CutFailed(SWO_INCORRECT_DATA)
        else if !Rate(finalization.value.0) then CutFailed(ERROR_INVALID_TRANSACTION)
        else Cuts(fee.value.0, reward.value.0, finalization.value.0, finalization.value.1)
  }

  function TakeRates(s: State, cdata: seq<byte>): Result
    requires s.Live?
  {
    match CutRates(s.has, cdata)
    case CutFailed(sw) => Fail(sw)
    case Cuts(fee, reward, finalization, rest) =>
      if !s.has.suspended && rest != [] then Fail(SWO_INCORRECT_DATA)
      else Park(s.(got := s.got.(fee := fee, reward := reward, finalization := finalization)), AfterRates(s.has))
  }

  function TakeSuspended(s: State, cdata: seq<byte>): Result
    requires s.Live?
  {
    if |cdata| != 1 then Fail(SWO_INCORRECT_DATA)
    else if cdata[0] > 1 then Fail(ERROR_INVALID_TRANSACTION)
    else Park(s.(got := s.got.(suspended := Some(cdata))), End)
  }

  /** handle_sign_configure_baker */
  function Step(s: State, p: Packet): Result
    requires Inv(s)
  {
    if s.Initial? && p.p1 == 0 then Begin(p.cdata)
    else if !s.Live? || s.parked then Fail(ERROR_INVALID_STATE)
    else
      match s.stage
      case FirstBatch => if p.p1 == 1 then TakeFirst(s, p.cdata) else Fail(ERROR_INVALID_STATE)
      case Aggregation => if p.p1 == 2 then TakeAggregation(s, p.cdata) else Fail(ERROR_INVALID_STATE)
      case UrlLength => if p.p1 == 3 then TakeUrlLength(s, p.cdata) else Fail(ERROR_INVALID_STATE)
      case UrlBytes => if p.p1 == 4 then TakeUrl(s, p.cdata) else Fail(ERROR_INVALID_STATE)
      case CommissionRates => if p.p1 == 5 then TakeRates(s, p.cdata) else Fail(ERROR_INVALID_STATE)
      case Suspended => if p.p1 == 6 then TakeSuspended(s, p.cdata) else Fail(ERROR_INVALID_STATE)
      case End => Fail(ERROR_INVALID_STATE)
  }

  /** confirmConfigureBakerStage: the only way out of a parked review, other than signing. */
  function Confirm(s: State): State
    requires s.Live?
  {
    s.(parked := false)
  }

  // ---- What every run keeps ----

  /** A field is there exactly if it was declared and its stage is over. */
  predicate Inv(s: State) {
    s.Live? ==>
      && |s.head| == ACCOUNT_TRANSACTION_HEADER_LENGTH + 1 && ValidConfig(s.got)
      && Collected(s.got, s.has, Rank(s.stage))
      && (s.urlLeft > 0 <==> s.stage.UrlBytes?)
      && (s.got.url.Some? ==> |s.got.url.value| + s.urlLeft <= MAX_URL_LENGTH)
      && Entered(s.has, s.stage)
      && (s.stage.FirstBatch? || s.stage.Aggregation? ==> !s.parked)
      && (s.stage.End? ==> s.parked)
  }

  predicate Collected(got: Config, has: Flags, rank: nat) {
    && (got.capital.Some? <==> has.capital && rank > 1)
    && (got.restake.Some? <==> has.restake && rank > 1)
    && (got.open.Some? <==> has.open && rank > 1)
    && (got.keys.Some? <==> has.keys && rank > 1)
    && (got.aggregation.Some? <==> has.keys && rank > 2)
    && (got.url.Some? <==> has.url && rank > 3)
    && (got.fee.Some? <==> has.fee && rank > 5)
    && (got.reward.Some? <==> has.reward && rank > 5)
    && (got.finalization.Some? <==> has.finalization && rank > 5)
    && (got.suspended.Some? <==> has.suspended && rank > 6)
  }

  /** A stage is entered only if something was declared for it. */
  predicate Entered(has: Flags, stage: Stage) {
    match stage
    case FirstBatch => has.AnyFirst()
    case Aggregation => has.keys
    case UrlLength => has.url
    case UrlBytes => has.url
    case CommissionRates => has.AnyRate()
    case Suspended => has.suspended
    case End => has != Flags(false, false, false, false, false, false, false, false, false)
  }

  lemma ConfirmKeepsInv(s: State)
    requires Inv(s) && s.Live? && s.parked && !s.stage.End?
    ensures Inv(Confirm(s))
  {
  }

  lemma TakeFirstKeepsInv(s: State, cdata: seq<byte>)
    requires Inv(s) && s.Live? && s.stage.FirstBatch?
    ensures Inv(TakeFirst(s, cdata).next)
  {
    hide FromBe, DisplayableText;
  }

  lemma TakeRatesKeepsInv(s: State, cdata: seq<byte>)
    requires Inv(s) && s.Live? && s.stage.CommissionRates?
    ensures Inv(TakeRates(s, cdata).next)
  {
    hide FromBe, DisplayableText;
  }

  lemma TakeUrlKeepsInv(s: State, cdata: seq<byte>)
    requires Inv(s) && s.Live? && s.stage.UrlBytes?
    ensures Inv(TakeUrl(s, cdata).next)
  {
    hide FromBe;
    assert DisplayableText(s.got.url.value);
  }

  lemma NoText()
    ensures DisplayableText([])
  {
  }

  lemma StepKeepsInv(s: State, p: Packet)
    requires Inv(s)
    ensures Inv(Step(s, p).next)
  {
    hide FromBe, TakeFirst, TakeRates, TakeUrl, DisplayableText, StartTransaction, FlagsOfBitmap;
    if s.Live? && !s.parked {
      match s.stage
      case FirstBatch => TakeFirstKeepsInv(s, p.cdata);
      case UrlBytes => TakeUrlKeepsInv(s, p.cdata);
      case CommissionRates => TakeRatesKeepsInv(s, p.cdata);
      case UrlLength => assert DisplayableText([]) by { NoText(); }
      case _ =>
    }
  }

  /** While a review is up every packet is refused, and the refusal ends the flow. */
  lemma ParkedRefusesPackets(s: State, p: Packet)
    requires Inv(s) && s.Live? && s.parked
    ensures Step(s, p) == Result(Stale, Throw(ERROR_INVALID_STATE))
  {
  }

  datatype Event = Send(p: Packet) | Approve

  /** Where the events of one flow lead; the host may send at any time, the user accepts what is parked. */
  function Run(events: seq<Event>): (r: Option<State>)
    ensures r.Some? ==> Inv(r.value)
  {
    if events == [] then
      InitialInv();
      Some(Initial)
    else
      match Run(events[..|events| - 1])
      case None => None
      case Some(s) => After(s, events[|events| - 1])
  }

  function After(s: State, e: Event): (r: Option<State>)
    requires Inv(s)
    ensures r.Some? ==> Inv(r.value)
  {
    match e
    case Send(p) =>
      StepKeepsInv(s, p);
      Some(Step(s, p).next)
    case Approve =>
      if s.Live? && s.parked && !s.stage.End? then
        ConfirmKeepsInv(s);
        Some(Confirm(s))
      else None
  }

  lemma InitialInv()
    ensures Inv(Initial) && Inv(Stale)
  {
  }

  /**
   When the signing screen is up, the hash has absorbed the header, the kind and the payload of
   one valid configuration with exactly the declared fields, of which there is at least one.
   */
  lemma SignedConfigurationIsComplete(s: State, events: seq<Event>)
    requires Run(events) == Some(s) && s.Live? && s.stage.End?
    ensures s.parked && ValidConfig(s.got) && FlagsOf(s.got) == s.has && s.got.keys.Some? == s.got.aggregation.Some?
    ensures Transcript(s) == s.head + Serialize(s.got) && s.got != NOTHING
  {
    hide Run, Body, ValidConfig;
    assert Inv(s);
    assert s.head + BitmapBytes(s.has) + Body(s.got, 0) == s.head + (BitmapBytes(s.has) + Body(s.got, 0));
  }

  /** Once wiped, a flow has nothing more to sign: no event leads it anywhere else. */
  lemma {:induction false} WipedStaysWiped(events: seq<Event>, more: seq<Event>)
    requires Run(events) == Some(Stale)
    ensures Run(events + more).None? || Run(events + more) == Some(Stale)
    decreases |more|
  {
    hide Run;
    if more == [] {
      assert events + more == events;
    } else {
      var n := |more| - 1;
      WipedStaysWiped(events, more[..n]);
      RunExtended(events + more[..n], more[n]);
      assert events + more == events + more[..n] + [more[n]];
    }
  }

  lemma RunExtended(events: seq<Event>, e: Event)
    ensures Run(events + [e]) == if Run(events).Some? then After(Run(events).value, e) else None
  {
    assert (events + [e])[..|events|] == events;
  }

  /** A packet pushed in while a review is up ends the flow for good: whatever follows, nothing is offered to sign. */
  lemma ParkedPacketEndsTheFlow(events: seq<Event>, s: State, p: Packet, more: seq<Event>)
    requires Run(events) == Some(s) && s.Live? && s.parked
    ensures var r := Run(events + [Send(p)] + more);
      r.None? || r == Some(Stale)
  {
    hide Run, Inv;
    assert Inv(s);
    ParkedRefusesPackets(s, p);
    RunExtended(events, Send(p));
    WipedStaysWiped(events + [Send(p)], more);
  }

  // ---- Every configuration can be signed ----

  /** Send the packets one by one, accepting every review that does not offer to sign. */
  function Drive(s: State, packets: seq<Packet>): Option<State>
    requires Inv(s)
    decreases |packets|
  {
    if packets == [] then Some(s)
    else
      var r := Step(s, packets[0]);
      StepKeepsInv(s, packets[0]);
      if !r.reply.Open() then None
      else if r.reply.Continue? then
        if r.next.Live? && r.next.parked && !r.next.stage.End? then
          ConfirmKeepsInv(r.next);
          Drive(Confirm(r.next), packets[1..])
        else None
      else Drive(r.next, packets[1..])
  }

  lemma DriveStep(s: State, p: Packet, rest: seq<Packet>, next: State)
    requires Inv(s) && Inv(next)
    requires var r := Step(s, p);
      || (r.reply.Ack? && r.next == next)
      || (r.reply.Sign? && r.next == next)
      || (r.reply.Continue? && r.next.Live? && r.next.parked && !r.next.stage.End? && Confirm(r.next) == next)
    ensures Drive(s, [p] + rest) == Drive(next, rest)
  {
    assert ([p] + rest)[1..] == rest;
  }

  predicate Chunks(chunks: seq<seq<byte>>) {
    forall i :: 0 <= i < |chunks| ==> chunks[i] != []
  }

  function UrlPackets(chunks: seq<seq<byte>>): seq<Packet> {
    if chunks == [] then [] else [Packet(4, chunks[0])] + UrlPackets(chunks[1..])
  }

  /** The packets that carry a configuration from a stage on, its URL in any chunks. */
  function PacketsFrom(stage: Stage, c: Config, chunks: seq<seq<byte>>): seq<Packet>
    decreases 7 - Rank(stage)
  {
    var has := FlagsOf(c);
    match stage
    case FirstBatch =>
      [Packet(1, First(c))] + PacketsFrom(if has.keys then Aggregation else AfterKeys(has), c, chunks)
    case Aggregation => [Packet(2, Raw(c.aggregation))] + PacketsFrom(AfterKeys(has), c, chunks)
    case UrlLength =>
      [Packet(3, ToBe(|Raw(c.url)|, 2))] + PacketsFrom(if Raw(c.url) == [] then AfterUrl(has) else UrlBytes, c, chunks)
    case UrlBytes => UrlPackets(chunks) + PacketsFrom(AfterUrl(has), c, chunks)
    case CommissionRates => [Packet(5, Rates(c))] + PacketsFrom(AfterRates(has), c, chunks)
    case Suspended => [Packet(6, Raw(c.suspended))]
    case End => []
  }

  /** The part of a configuration that has arrived before a stage. */
  function Before(c: Config, stage: Stage): Config {
    var r := Rank(stage);
    Config(if r > 1 then c.capital else None, if r > 1 then c.restake else None, if r > 1 then c.open else None,
           if r > 1 then c.keys else None, if r > 2 then c.aggregation else None,
           if r > 4 then c.url else if r == 4 then Some([]) else None,
           if r > 5 then c.fee else None, if r > 5 then c.reward else None, if r > 5 then c.finalization else None,
           if r > 6 then c.suspended else None)
  }

  /** A configuration that can be sent: fields valid, both halves of the keys, the URL cut into `chunks`. */
  predicate Sendable(c: Config, chunks: seq<seq<byte>>) {
    && ValidConfig(c) && c.keys.Some? == c.aggregation.Some?
    && Chunks(chunks) && Flatten(chunks) == Raw(c.url)
  }

  /** The flow waits for `stage`, having received everything before it. */
  function Awaiting(path: Path, head: seq<byte>, c: Config, stage: Stage): State {
    Live(path, head, FlagsOf(c), stage, stage.End?, Before(c, stage), if stage.UrlBytes? then |Raw(c.url)| else 0)
  }

  predicate Sensible(head: seq<byte>, c: Config, chunks: seq<seq<byte>>, stage: Stage) {
    && Sendable(c, chunks) && |head| == ACCOUNT_TRANSACTION_HEADER_LENGTH + 1
    && Entered(FlagsOf(c), stage) && (stage.UrlBytes? ==> Raw(c.url) != [])
  }

  lemma AwaitingInv(path: Path, head: seq<byte>, c: Config, chunks: seq<seq<byte>>, stage: Stage)
    requires Sensible(head, c, chunks, stage)
    ensures Inv(Awaiting(path, head, c, stage))
  {
    hide FromBe, Flatten, Chunks;
  }

  lemma CutField(f: Field, n: nat, rest: seq<byte>)
    requires Length(f, n)
    ensures Cut(f.Some?, n, Raw(f) + rest) == Some((f, rest))
  {
    if f.Some? {
      assert (Raw(f) + rest)[..n] == f.value && (Raw(f) + rest)[n..] == rest;
    } else {
      assert [] + rest == rest;
    }
  }

  lemma FirstIsTaken(path: Path, head: seq<byte>, c: Config, chunks: seq<seq<byte>>)
    requires Sensible(head, c, chunks, FirstBatch)
    ensures var s := Awaiting(path, head, c, FirstBatch);
      TakeFirst(s, First(c)) == if c.keys.Some? then Result(Awaiting(path, head, c, Aggregation), Ack)
                                else Park(Awaiting(path, head, c, AfterKeys(FlagsOf(c))), AfterKeys(FlagsOf(c)))
  {
    hide FromBe, Flatten, Chunks, DisplayableText;
    assert First(c) == Raw(c.capital) + (Raw(c.restake) + (Raw(c.open) + Raw(c.keys)));
    CutField(c.capital, 8, Raw(c.restake) + (Raw(c.open) + Raw(c.keys)));
    CutField(c.restake, 1, Raw(c.open) + Raw(c.keys));
    CutField(c.open, 1, Raw(c.keys));
  }

  lemma RatesAreTaken(path: Path, head: seq<byte>, c: Config, chunks: seq<seq<byte>>)
    requires Sensible(head, c, chunks, CommissionRates)
    ensures var s := Awaiting(path, head, c, CommissionRates);
      TakeRates(s, Rates(c)) == Park(Awaiting(path, head, c, AfterRates(FlagsOf(c))), AfterRates(FlagsOf(c)))
  {
    hide FromBe, Flatten, Chunks, DisplayableText;
    assert Rates(c) == Raw(c.fee) + (Raw(c.reward) + (Raw(c.finalization) + []));
    CutField(c.fee, 4, Raw(c.reward) + (Raw(c.finalization) + []));
    CutField(c.reward, 4, Raw(c.finalization) + []);
    CutField(c.finalization, 4, []);
  }

  lemma UrlIsTaken(s: State, chunks: seq<seq<byte>>, rest: seq<Packet>, end: State)
    requires Inv(s) && Inv(end) && s.Live? && s.stage.UrlBytes? && !s.parked && s.urlLeft == |Flatten(chunks)| && Chunks(chunks)
    requires forall i :: 0 <= i < |chunks| ==> DisplayableText(chunks[i])
    requires end == s.(got := s.got.(url := Some(s.got.url.value + Flatten(chunks))), urlLeft := 0,
                       stage := AfterUrl(s.has), parked := AfterUrl(s.has).End?)
    ensures Drive(s, UrlPackets(chunks) + rest) == Drive(end, rest)
    decreases |chunks|
  {
    hide Inv, FromBe, DisplayableText, Drive;
    UrlIsOwed(s);
    var p := Packet(4, chunks[0]);
    var url := s.got.url.value + chunks[0];
    var left := s.urlLeft - |chunks[0]|;
    assert UrlPackets(chunks) + rest == [p] + (UrlPackets(chunks[1..]) + rest);
    assert url + Flatten(chunks[1..]) == s.got.url.value + Flatten(chunks);
    StepKeepsInv(s, p);
    if left == 0 {
      assert chunks[1..] == [] by { NothingLeft(chunks[1..]); }
      assert Flatten(chunks) == chunks[0] + [] == chunks[0];
      DriveStep(s, p, rest, end);
      assert UrlPackets(chunks[1..]) + rest == rest;
    } else {
      var next := s.(got := s.got.(url := Some(url)), urlLeft := left);
      ConfirmKeepsInv(Step(s, p).next);
      DriveStep(s, p, UrlPackets(chunks[1..]) + rest, next);
      UrlIsTaken(next, chunks[1..], rest, end);
    }
  }

  lemma UrlIsOwed(s: State)
    requires Inv(s) && s.Live? && s.stage.UrlBytes?
    ensures s.urlLeft > 0 && s.got.url.Some?
  {
  }

  lemma NothingLeft(chunks: seq<seq<byte>>)
    requires Chunks(chunks) && Flatten(chunks) == []
    ensures chunks == []
  {
  }

  lemma {:induction false} ChunksAreDisplayable(chunks: seq<seq<byte>>)
    requires DisplayableText(Flatten(chunks))
    ensures forall i :: 0 <= i < |chunks| ==> DisplayableText(chunks[i])
  {
    if chunks != [] {
      var rest := chunks[1..];
      DisplayableParts(chunks[0], Flatten(rest));
      ChunksAreDisplayable(rest);
      forall i | 0 <= i < |chunks| ensures DisplayableText(chunks[i]) {
        if i > 0 { assert chunks[i] == rest[i - 1]; }
      }
    }
  }

  /** A stage whose packet is answered by a review leads, once that is accepted, to the next stage. */
  lemma ReviewedStep(path: Path, head: seq<byte>, c: Config, chunks: seq<seq<byte>>, s: State, p: Packet, next: Stage,
                     rest: seq<Packet>)
    requires Inv(s) && Sensible(head, c, chunks, next)
    requires Step(s, p) == Park(Awaiting(path, head, c, next), next)
    ensures Inv(Awaiting(path, head, c, next))
    ensures Drive(s, [p] + rest) == Drive(Awaiting(path, head, c, next), rest)
  {
    hide Inv, Step, Drive, Sensible, Before;
    var t := Awaiting(path, head, c, next);
    AwaitingInv(path, head, c, chunks, next);
    assert !next.End? ==> Confirm(Step(s, p).next) == t;
    DriveStep(s, p, rest, t);
  }

  lemma FirstStageCompletes(path: Path, head: seq<byte>, c: Config, chunks: seq<seq<byte>>)
    requires Sensible(head, c, chunks, FirstBatch)
    ensures var s, next := Awaiting(path, head, c, FirstBatch), if c.keys.Some? then Aggregation else AfterKeys(FlagsOf(c));
      && Inv(s) && Inv(Awaiting(path, head, c, next)) && Sensible(head, c, chunks, next)
      && Drive(s, PacketsFrom(FirstBatch, c, chunks)) == Drive(Awaiting(path, head, c, next), PacketsFrom(next, c, chunks))
  {
    hide Inv, Before, Drive, Flatten, Chunks, DisplayableText, TakeFirst, TakeRates, FromBe, ToBe, ValidConfig, First, Rates, Url;
    var s, next := Awaiting(path, head, c, FirstBatch), if c.keys.Some? then Aggregation else AfterKeys(FlagsOf(c));
    AwaitingInv(path, head, c, chunks, FirstBatch);
    FirstIsTaken(path, head, c, chunks);
    if c.keys.Some? {
      AwaitingInv(path, head, c, chunks, Aggregation);
      DriveStep(s, Packet(1, First(c)), PacketsFrom(next, c, chunks), Awaiting(path, head, c, Aggregation));
    } else {
      ReviewedStep(path, head, c, chunks, s, Packet(1, First(c)), next, PacketsFrom(next, c, chunks));
    }
  }

  lemma UrlLengthStageCompletes(path: Path, head: seq<byte>, c: Config, chunks: seq<seq<byte>>)
    requires Sensible(head, c, chunks, UrlLength)
    ensures var s, next := Awaiting(path, head, c, UrlLength), if Raw(c.url) == [] then AfterUrl(FlagsOf(c)) else UrlBytes;
      && Inv(s) && Inv(Awaiting(path, head, c, next)) && Sensible(head, c, chunks, next)
      && Drive(s, PacketsFrom(UrlLength, c, chunks)) == Drive(Awaiting(path, head, c, next), PacketsFrom(next, c, chunks))
  {
    hide Inv, Before, Drive, Flatten, Chunks, DisplayableText, TakeFirst, TakeRates, FromBe, ToBe, ValidConfig, First, Rates, Url;
    var s, next := Awaiting(path, head, c, UrlLength), if Raw(c.url) == [] then AfterUrl(FlagsOf(c)) else UrlBytes;
    var p := Packet(3, ToBe(|Raw(c.url)|, 2));
    AwaitingInv(path, head, c, chunks, UrlLength);
    UrlLengthIsTaken(path, head, c, chunks);
    if Raw(c.url) == [] {
      ReviewedStep(path, head, c, chunks, s, p, next, PacketsFrom(next, c, chunks));
    } else {
      AwaitingInv(path, head, c, chunks, UrlBytes);
      DriveStep(s, p, PacketsFrom(next, c, chunks), Awaiting(path, head, c, UrlBytes));
    }
  }

  /** From any stage on, the packets of a configuration lead to its signing screen. */
  lemma {:induction false} StageCompletes(path: Path, head: seq<byte>, c: Config, chunks: seq<seq<byte>>, stage: Stage)
    requires Sensible(head, c, chunks, stage)
    ensures Inv(Awaiting(path, head, c, stage))
    ensures Drive(Awaiting(path, head, c, stage), PacketsFrom(stage, c, chunks)) == Some(Awaiting(path, head, c, End))
    decreases 7 - Rank(stage)
  {
    hide Inv, Before, Drive, Flatten, Chunks, DisplayableText, TakeFirst, TakeRates, FromBe, ToBe, ValidConfig, First, Rates, Url;
    var has := FlagsOf(c);
    var s := Awaiting(path, head, c, stage);
    AwaitingInv(path, head, c, chunks, stage);
    match stage
    case FirstBatch =>
      FirstStageCompletes(path, head, c, chunks);
      StageCompletes(path, head, c, chunks, if has.keys then Aggregation else AfterKeys(has));
    case Aggregation =>
      var p, next := Packet(2, Raw(c.aggregation)), AfterKeys(has);
      AggregationIsTaken(path, head, c, chunks);
      ReviewedStep(path, head, c, chunks, s, p, next, PacketsFrom(next, c, chunks));
      StageCompletes(path, head, c, chunks, next);
    case UrlLength =>
      UrlLengthStageCompletes(path, head, c, chunks);
      StageCompletes(path, head, c, chunks, if Raw(c.url) == [] then AfterUrl(has) else UrlBytes);
    case UrlBytes =>
      UrlStageCompletes(path, head, c, chunks);
      StageCompletes(path, head, c, chunks, AfterUrl(has));
    case CommissionRates =>
      var p, next := Packet(5, Rates(c)), AfterRates(has);
      RatesAreTaken(path, head, c, chunks);
      ReviewedStep(path, head, c, chunks, s, p, next, PacketsFrom(next, c, chunks));
      StageCompletes(path, head, c, chunks, next);
    case Suspended =>
      var p := Packet(6, Raw(c.suspended));
      SuspendedIsTaken(path, head, c, chunks);
      assert [p] + [] == [p];
      ReviewedStep(path, head, c, chunks, s, p, End, []);
      DriveDone(Awaiting(path, head, c, End));
    case End =>
      DriveDone(s);
  }

  lemma DriveDone(s: State)
    requires Inv(s)
    ensures Drive(s, []) == Some(s)
  {
  }

  lemma AggregationIsTaken(path: Path, head: seq<byte>, c: Config, chunks: seq<seq<byte>>)
    requires Sensible(head, c, chunks, Aggregation)
    ensures TakeAggregation(Awaiting(path, head, c, Aggregation), Raw(c.aggregation))
         == Park(Awaiting(path, head, c, AfterKeys(FlagsOf(c))), AfterKeys(FlagsOf(c)))
  {
    hide FromBe, Flatten, Chunks, DisplayableText;
  }

  lemma SuspendedIsTaken(path: Path, head: seq<byte>, c: Config, chunks: seq<seq<byte>>)
    requires Sensible(head, c, chunks, Suspended)
    ensures TakeSuspended(Awaiting(path, head, c, Suspended), Raw(c.suspended)) == Park(Awaiting(path, head, c, End), End)
  {
    hide FromBe, Flatten, Chunks, DisplayableText;
  }

  lemma UrlLengthIsTaken(path: Path, head: seq<byte>, c: Config, chunks: seq<seq<byte>>)
    requires Sensible(head, c, chunks, UrlLength)
    ensures TakeUrlLength(Awaiting(path, head, c, UrlLength), ToBe(|Raw(c.url)|, 2))
         == if Raw(c.url) == [] then Park(Awaiting(path, head, c, AfterUrl(FlagsOf(c))), AfterUrl(FlagsOf(c)))
            else Result(Awaiting(path, head, c, UrlBytes), Ack)
  {
    hide FromBe, ToBe, Flatten, Chunks, DisplayableText;
    var n := |Raw(c.url)|;
    Pow256Values();
    FromBeToBe(n, 2);
    assert ToBe(n, 2)[..2] == ToBe(n, 2);
  }

  lemma UrlStageCompletes(path: Path, head: seq<byte>, c: Config, chunks: seq<seq<byte>>)
    requires Sensible(head, c, chunks, UrlBytes)
    ensures var s, next := Awaiting(path, head, c, UrlBytes), AfterUrl(FlagsOf(c));
      && Inv(s) && Inv(Awaiting(path, head, c, next)) && Sensible(head, c, chunks, next)
      && Drive(s, PacketsFrom(UrlBytes, c, chunks)) == Drive(Awaiting(path, head, c, next), PacketsFrom(next, c, chunks))
  {
    hide Inv, Drive, Flatten, Chunks, DisplayableText, FromBe, PacketsFrom;
    var s, next := Awaiting(path, head, c, UrlBytes), AfterUrl(FlagsOf(c));
    AwaitingInv(path, head, c, chunks, UrlBytes);
    AwaitingInv(path, head, c, chunks, next);
    ChunksAreDisplayable(chunks);
    assert [] + Flatten(chunks) == Flatten(chunks);
    PacketsFromUrl(c, chunks);
    UrlIsTaken(s, chunks, PacketsFrom(next, c, chunks), Awaiting(path, head, c, next));
  }

  lemma PacketsFromUrl(c: Config, chunks: seq<seq<byte>>)
    ensures PacketsFrom(UrlBytes, c, chunks) == UrlPackets(chunks) + PacketsFrom(AfterUrl(FlagsOf(c)), c, chunks)
  {
  }

  /**
   Every valid configuration with at least one field reaches its signing screen, whatever chunks
   its URL is cut into, with exactly its serialisation behind the header.
   */
  lemma EveryConfigurationCanBeSigned(path: Path, head: seq<byte>, c: Config, chunks: seq<seq<byte>>, first: seq<byte>)
    requires Sendable(c, chunks) && c != NOTHING
    requires var start := StartTransaction(first, KIND_CONFIGURE_BAKER);
      start.Started? && start.path == path && start.transcript == head && start.rest == BitmapBytes(FlagsOf(c))
    ensures var has := FlagsOf(c);
      var stage := if has.AnyFirst() then FirstBatch else AfterKeys(has);
      && Drive(Initial, [Packet(0, first)] + PacketsFrom(stage, c, chunks)) == Some(Awaiting(path, head, c, End))
      && Transcript(Awaiting(path, head, c, End)) == head + Serialize(c)
  {
    hide Drive, Flatten, Chunks, DisplayableText, FromBe, ToBe, PacketsFrom, StartTransaction, FlagsOfBitmap, Body, ValidConfig, Flags.Bitmap;
    var has := FlagsOf(c);
    var stage := if has.AnyFirst() then FirstBatch else AfterKeys(has);
    FlagsRoundTrip(has);
    Pow256Values();
    FromBeToBe(has.Bitmap(), 2);
    assert BitmapBytes(has)[..2] == BitmapBytes(has);
    InitialInv();
    StageCompletes(path, head, c, chunks, stage);
    assert Begin(first) == Result(Awaiting(path, head, c, stage), Ack);
    DriveStep(Initial, Packet(0, first), PacketsFrom(stage, c, chunks), Awaiting(path, head, c, stage));
    assert Before(c, End) == c;
    assert head + BitmapBytes(has) + Body(c, 0) == head + (BitmapBytes(has) + Body(c, 0));
  }

  // ---- The same, event by event ----

  /** The packets among the events. */
  function Sends(events: seq<Event>): seq<Packet> {
    if events == [] then []
    else
      match events[|events| - 1]
      case Send(p) => Sends(events[..|events| - 1]) + [p]
      case Approve => Sends(events[..|events| - 1])
  }

  lemma SendsExtended(events: seq<Event>, p: Packet)
    ensures Sends(events + [Send(p)]) == Sends(events) + [p] && Sends(events + [Approve]) == Sends(events) && Sends([]) == []
  {
    assert (events + [Approve])[..|events|] == events && (events + [Send(p)])[..|events|] == events;
  }

  /** A packet that a command can carry. */
  predicate Carried(p: Packet) {
    1 <= |p.cdata| <= UINT8_MAX
  }

  predicate EachCarried(packets: seq<Packet>) {
    forall i :: 0 <= i < |packets| ==> Carried(packets[i])
  }

  predicate AllCarried(events: seq<Event>) {
    forall i :: 0 <= i < |events| && events[i].Send? ==> Carried(events[i].p)
  }

  lemma {:induction false} DriveIsARun(events: seq<Event>, s: State, packets: seq<Packet>, t: State) returns (more: seq<Event>)
    requires Run(events) == Some(s) && Inv(s) && Drive(s, packets) == Some(t)
    requires AllCarried(events) && EachCarried(packets)
    ensures Run(more) == Some(t) && Sends(more) == Sends(events) + packets && AllCarried(more)
    ensures packets != [] && events == [] ==> more != [] && more[0].Send?
    ensures events <= more
    decreases |packets|
  {
    hide Inv, Run, Step, Confirm, Sends, Carried;
    more := events;
    if packets != [] {
      var p, r := packets[0], Step(s, packets[0]);
      assert packets == [p] + packets[1..];
      StepKeepsInv(s, p);
      RunExtended(events, Send(p));
      SendsExtended(events, p);
      more := events + [Send(p)];
      var m := r.next;
      if r.reply.Continue? {
        RunExtended(more, Approve);
        SendsExtended(more, p);
        more := more + [Approve];
        m := Confirm(r.next);
        ConfirmKeepsInv(r.next);
      }
      more := DriveIsARun(more, m, packets[1..], t);
    }
  }

  lemma JoinedAreCarried(a: seq<Packet>, b: seq<Packet>)
    requires EachCarried(a) && EachCarried(b)
    ensures EachCarried(a + b)
  {
  }

  /** The packets of one stage, and the stage behind it. */
  function PacketsAt(stage: Stage, c: Config, chunks: seq<seq<byte>>): seq<Packet> {
    match stage
    case FirstBatch => [Packet(1, First(c))]
    case Aggregation => [Packet(2, Raw(c.aggregation))]
    case UrlLength => [Packet(3, ToBe(|Raw(c.url)|, 2))]
    case UrlBytes => UrlPackets(chunks)
    case CommissionRates => [Packet(5, Rates(c))]
    case Suspended => [Packet(6, Raw(c.suspended))]
    case End => []
  }

  function Behind(stage: Stage, c: Config): Stage {
    var has := FlagsOf(c);
    match stage
    case FirstBatch => if has.keys then Aggregation else AfterKeys(has)
    case Aggregation => AfterKeys(has)
    case UrlLength => if Raw(c.url) == [] then AfterUrl(has) else UrlBytes
    case UrlBytes => AfterUrl(has)
    case CommissionRates => AfterRates(has)
    case _ => End
  }

  lemma PacketsSplit(stage: Stage, c: Config, chunks: seq<seq<byte>>)
    ensures PacketsFrom(stage, c, chunks) == PacketsAt(stage, c, chunks) + PacketsFrom(Behind(stage, c), c, chunks)
    ensures stage.End? ==> PacketsFrom(stage, c, chunks) == []
  {
    hide First, Raw, Rates, ToBe, UrlPackets;
    assert PacketsFrom(End, c, chunks) == [];
  }

  lemma StageIsBehind(stage: Stage, c: Config)
    requires Entered(FlagsOf(c), stage) && !stage.End?
    ensures Entered(FlagsOf(c), Behind(stage, c)) && Rank(Behind(stage, c)) > Rank(stage)
  {
  }

  lemma StageIsCarried(stage: Stage, c: Config, chunks: seq<seq<byte>>)
    requires Sendable(c, chunks) && Entered(FlagsOf(c), stage) && forall i :: 0 <= i < |chunks| ==> |chunks[i]| <= UINT8_MAX
    ensures EachCarried(PacketsAt(stage, c, chunks))
  {
    FieldsAreCarried(c, chunks);
    UrlPacketsAre(chunks);
    hide First, Raw, Rates, ToBe, Sendable, UrlPackets;
  }

  lemma {:induction false} PacketsAreCarried(c: Config, chunks: seq<seq<byte>>, stage: Stage)
    requires Sendable(c, chunks) && Entered(FlagsOf(c), stage) && forall i :: 0 <= i < |chunks| ==> |chunks[i]| <= UINT8_MAX
    ensures EachCarried(PacketsFrom(stage, c, chunks))
    decreases 7 - Rank(stage)
  {
    hide Sendable, Entered, FlagsOf, Behind, PacketsAt, PacketsFrom, Carried;
    PacketsSplit(stage, c, chunks);
    if !stage.End? {
      StageIsCarried(stage, c, chunks);
      StageIsBehind(stage, c);
      PacketsAreCarried(c, chunks, Behind(stage, c));
      JoinedAreCarried(PacketsAt(stage, c, chunks), PacketsFrom(Behind(stage, c), c, chunks));
    }
  }

  lemma OneIsCarried(p: Packet, rest: seq<Packet>)
    requires Carried(p)
    ensures EachCarried(rest) ==> EachCarried([p] + rest)
  {
  }

  lemma FieldsAreCarried(c: Config, chunks: seq<seq<byte>>)
    requires Sendable(c, chunks)
    ensures FlagsOf(c).AnyFirst() ==> Carried(Packet(1, First(c)))
    ensures FlagsOf(c).keys ==> Carried(Packet(2, Raw(c.aggregation)))
    ensures Carried(Packet(3, ToBe(|Raw(c.url)|, 2)))
    ensures FlagsOf(c).AnyRate() ==> Carried(Packet(5, Rates(c)))
    ensures FlagsOf(c).suspended ==> Carried(Packet(6, Raw(c.suspended)))
    ensures forall i :: 0 <= i < |chunks| ==> chunks[i] != []
  {
    hide FromBe, DisplayableText, Flatten;
  }

  lemma {:induction false} UrlPacketsAre(chunks: seq<seq<byte>>)
    ensures |UrlPackets(chunks)| == |chunks| && forall i :: 0 <= i < |chunks| ==> UrlPackets(chunks)[i] == Packet(4, chunks[i])
  {
    if chunks != [] {
      UrlPacketsAre(chunks[1..]);
    }
  }

  /** Every valid non-empty configuration has a run, event by event, that ends at its signing screen. */
  lemma EveryConfigurationHasARun(path: Path, head: seq<byte>, c: Config, chunks: seq<seq<byte>>, first: Data)
    returns (events: seq<Event>)
    requires Sendable(c, chunks) && c != NOTHING && forall i :: 0 <= i < |chunks| ==> |chunks[i]| <= UINT8_MAX
    requires var start := StartTransaction(first, KIND_CONFIGURE_BAKER);
      start.Started? && start.path == path && start.transcript == head && start.rest == BitmapBytes(FlagsOf(c))
    ensures var has := FlagsOf(c);
      var stage := if has.AnyFirst() then FirstBatch else AfterKeys(has);
      && Run(events) == Some(Awaiting(path, head, c, End)) && events != [] && events[0].Send? && AllCarried(events)
      && Sends(events) == [Packet(0, first)] + PacketsFrom(stage, c, chunks)
      && Transcript(Awaiting(path, head, c, End)) == head + Serialize(c)
  {
    hide Drive, Sendable, StartTransaction, Awaiting, Transcript, Serialize, PacketsFrom, BitmapBytes, Run;
    EveryConfigurationCanBeSigned(path, head, c, chunks, first);
    var has := FlagsOf(c);
    var stage := if has.AnyFirst() then FirstBatch else AfterKeys(has);
    StageIsEntered(c, chunks);
    PacketsAreCarried(c, chunks, stage);
    OneIsCarried(Packet(0, first), PacketsFrom(stage, c, chunks));
    InitialInv();
    SendsExtended([], Packet(0, first));
    assert Run([]) == Some(Initial) by { NothingSent(); }
    events := DriveIsARun([], Initial, [Packet(0, first)] + PacketsFrom(stage, c, chunks), Awaiting(path, head, c, End));
  }

  lemma StageIsEntered(c: Config, chunks: seq<seq<byte>>)
    requires Sendable(c, chunks) && c != NOTHING
    ensures Entered(FlagsOf(c), if FlagsOf(c).AnyFirst() then FirstBatch else AfterKeys(FlagsOf(c)))
  {
  }

  lemma NothingSent()
    ensures Run([]) == Some(Initial)
  {
    InitialInv();
  }
}
