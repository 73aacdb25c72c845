/**
 A small model of the CBOR reader the handlers drive: initial bytes with their arguments
 (section 3 of RFC 8949), and a cursor over the items of one container. A cursor holds the
 bytes not yet consumed and how many items its container still owes; moving it decodes the
 next initial byte, so a malformed one fails the move. A tag is not an item of its own.
 */
module Cbor {
  import opened Bytes
  import opened Options

  const UNSIGNED: byte := 0
  const NEGATIVE: byte := 1
  const BYTES: byte := 2
  const TEXT: byte := 3
  const ARRAY: byte := 4
  const MAP: byte := 5
  const TAG: byte := 6
  const SIMPLE: byte := 7
  const BREAK: byte := 0xFF

  /** How the argument of an initial byte is written: inline, or in 1, 2, 4 or 8 further bytes. */
  datatype Width = Inline | One | Two | Four | Eight
  {
    function Size(): (n: nat)
      ensures n <= 8
    {
      match this case Inline => 0 case One => 1 case Two => 2 case Four => 4 case Eight => 8
    }

    function ShortCount(): byte
      requires !Inline?
    {
      match this case One => 24 case Two => 25 case Four => 26 case Eight => 27
    }

    predicate Holds(argument: nat) {
      if Inline? then argument <= 23 else argument < Pow256(Size())
    }
  }

  function WidthOf(shortCount: byte): Width
    requires 24 <= shortCount <= 27
  {
    if shortCount == 24 then One else if shortCount == 25 then Two else if shortCount == 26 then Four else Eight
  }

  /** The shortest form of an argument (section 4.1 of RFC 8949). */
  function Shortest(argument: nat): (w: Width)
    requires argument <= UINT64_MAX
    ensures w.Holds(argument)
    ensures forall v: Width :: v.Holds(argument) ==> w.Size() <= v.Size()
  {
    Pow256Values();
    if argument <= 23 then Inline else if argument <= UINT8_MAX then One else if argument <= UINT16_MAX then Two
    else if argument <= UINT32_MAX then Four else Eight
  }

  datatype Head = Definite(major: byte, argument: nat, width: Width) | Indefinite(major: byte)

  /** The initial byte and argument bytes of a definite item. */
  function WriteHead(major: byte, argument: nat, width: Width): (s: seq<byte>)
    requires major < 7 && width.Holds(argument)
    ensures |s| == 1 + width.Size() && s[0] / 32 == major
  {
    if width.Inline? then [major * 32 + argument]
    else [major * 32 + width.ShortCount()] + ToBe(argument, width.Size())
  }

  /** Decode the initial byte and argument at the front of `rest`. */
  function ReadHead(rest: seq<byte>): Option<Head>
  {
    if rest == [] then None
    else
      var major, shortCount := rest[0] / 32, rest[0] % 32;
      if shortCount <= 23 then Some(Definite(major, shortCount, Inline))
      else if shortCount <= 27 then
        var width := WidthOf(shortCount);
        if |rest| < 1 + width.Size() then None
        else
          var argument := FromBe(rest[1..1 + width.Size()]);
          if major == SIMPLE && width == One && argument < 32 then None
          else Some(Definite(major, argument, width))
      else if shortCount == 31 && BYTES <= major <= MAP then Some(Indefinite(major))
      else None
  }

  lemma ReadAfterWrite(major: byte, argument: nat, width: Width, tail: seq<byte>)
    requires major < 7 && width.Holds(argument)
    ensures ReadHead(WriteHead(major, argument, width) + tail) == Some(Definite(major, argument, width))
    ensures (WriteHead(major, argument, width) + tail)[1 + width.Size()..] == tail
  {
    var s := WriteHead(major, argument, width) + tail;
    if !width.Inline? {
      assert s[1..1 + width.Size()] == ToBe(argument, width.Size());
      FromBeToBe(argument, width.Size());
    }
  }

  lemma WriteAfterRead(rest: seq<byte>)
    requires ReadHead(rest).Some? && ReadHead(rest).value.Definite? && ReadHead(rest).value.major < 7
    ensures var h := ReadHead(rest).value;
      && h.width.Holds(h.argument) && 1 + h.width.Size() <= |rest|
      && rest == WriteHead(h.major, h.argument, h.width) + rest[1 + h.width.Size()..]
  {
    var h := ReadHead(rest).value;
    if !h.width.Inline? {
      ToBeFromBe(rest[1..1 + h.width.Size()]);
    }
  }

  // ---- The cursor ----

  datatype Cursor = Cursor(rest: seq<byte>, remaining: nat)
  {
    predicate AtEnd() {
      remaining == 0
    }

    /** The decoded initial byte under the cursor; a cursor at the end of its container has none. */
    function Item(): Option<Head> {
      if remaining == 0 then None else ReadHead(rest)
    }

    predicate Is(major: byte) {
      Item().Some? && Item().value.major == major
    }

    /** A definite item of this major type. */
    predicate IsDefinite(major: byte) {
      Is(major) && Item().value.Definite?
    }

    function Argument(): nat
      requires Item().Some? && Item().value.Definite?
    {
      Item().value.argument
    }

    /** The bytes behind the initial byte and argument. */
    function Behind(): seq<byte>
      requires Item().Some? && Item().value.Definite?
    {
      if 1 + Item().value.width.Size() <= |rest| then rest[1 + Item().value.width.Size()..] else []
    }
  }

  /** Land a cursor: the next initial byte, if the container owes one, must decode. */
  function Settle(rest: seq<byte>, remaining: nat): (c: Option<Cursor>)
    ensures c.Some? <==> remaining == 0 || ReadHead(rest).Some?
    ensures c.Some? ==> c.value == Cursor(rest, remaining)
  {
    if remaining == 0 || ReadHead(rest).Some? then Some(Cursor(rest, remaining)) else None
  }

  /** cbor_parser_init */
  function Open(buffer: seq<byte>): Option<Cursor> {
    Settle(buffer, 1)
  }

  /** cbor_value_advance_fixed over an integer. */
  function Advance(c: Cursor): Option<Cursor>
    requires c.IsDefinite(UNSIGNED) || c.IsDefinite(NEGATIVE)
  {
    Settle(c.Behind(), c.remaining - 1)
  }

  /** cbor_value_advance_fixed over a tag: the tagged item still has to come. */
  function SkipTag(c: Cursor): Option<Cursor>
    requires c.IsDefinite(TAG)
  {
    Settle(c.Behind(), c.remaining)
  }

  /** cbor_value_enter_container on a definite array or map; a map owes its keys and its values. */
  function Enter(c: Cursor): Option<Cursor>
    requires c.IsDefinite(ARRAY) || c.IsDefinite(MAP)
  {
    Settle(c.Behind(), if c.Is(MAP) then 2 * c.Argument() else c.Argument())
  }

  /** cbor_value_leave_container: the outer cursor moves behind the inner one. */
  function Leave(outer: Cursor, inner: Cursor): Option<Cursor>
    requires outer.remaining > 0
  {
    Settle(inner.rest, outer.remaining - 1)
  }

  /** The content of a definite string, which must be there in full. */
  function StringContent(c: Cursor): Option<seq<byte>>
    requires c.IsDefinite(BYTES) || c.IsDefinite(TEXT)
  {
    if c.Argument() <= |c.Behind()| then Some(c.Behind()[..c.Argument()]) else None
  }

  /** cbor_value_advance over a definite string. */
  function SkipString(c: Cursor): Option<Cursor>
    requires c.IsDefinite(BYTES) || c.IsDefinite(TEXT)
  {
    if c.Argument() <= |c.Behind()| then Settle(c.Behind()[c.Argument()..], c.remaining - 1) else None
  }
}
