/** The wire format: a header of two 32-bit integers, then length-prefixed values. */
module Codec {
  import opened Lists

  newtype byte = x: int | 0 <= x < 256

  const INT_MIN: int := -0x8000_0000
  const INT_MAX: int := 0x7FFF_FFFF

  predicate IsInt(n: int) {
    INT_MIN <= n <= INT_MAX
  }

  // ----- 32-bit integers: two's complement, least significant byte first

  function EncodeInt(n: int): (b: seq<byte>)
    requires IsInt(n)
    ensures |b| == 4
    ensures b[0] as int + 0x100 * b[1] as int + 0x1_0000 * b[2] as int + 0x100_0000 * b[3] as int
         == n % 0x1_0000_0000
  {
    var u := if n < 0 then n + 0x1_0000_0000 else n;
    DigitsOf(u);
    [(u % 0x100) as byte, (u / 0x100 % 0x100) as byte, (u / 0x1_0000 % 0x100) as byte, (u / 0x100_0000) as byte]
  }

  lemma DigitsOf(u: int)
    requires 0 <= u < 0x1_0000_0000
    ensures 0 <= u % 0x100 < 0x100 && 0 <= u / 0x100 % 0x100 < 0x100 && 0 <= u / 0x1_0000 % 0x100 < 0x100
    ensures 0 <= u / 0x100_0000 < 0x100
    ensures u % 0x100 + 0x100 * (u / 0x100 % 0x100) + 0x1_0000 * (u / 0x1_0000 % 0x100) + 0x100_0000 * (u / 0x100_0000)
         == u
  {
    assert u / 0x100 / 0x100 == u / 0x1_0000 && u / 0x1_0000 / 0x100 == u / 0x100_0000;
  }

  function DecodeInt(b: seq<byte>): (n: int)
    requires |b| == 4
    ensures IsInt(n)
  {
    var u := b[0] as int + 0x100 * b[1] as int + 0x1_0000 * b[2] as int + 0x100_0000 * b[3] as int;
    if u > INT_MAX then u - 0x1_0000_0000 else u
  }

  lemma DecodeEncode(n: int)
    requires IsInt(n)
    ensures DecodeInt(EncodeInt(n)) == n
  {
    var u := if n < 0 then n + 0x1_0000_0000 else n;
    assert u / 0x100 / 0x100 == u / 0x1_0000 && u / 0x1_0000 / 0x100 == u / 0x100_0000;
  }

  lemma EncodeDecode(b: seq<byte>)
    requires |b| == 4
    ensures EncodeInt(DecodeInt(b)) == b
  {
    var u := b[0] as int + 0x100 * b[1] as int + 0x1_0000 * b[2] as int + 0x100_0000 * b[3] as int;
    Digits(b[0] as int, b[1] as int, b[2] as int, b[3] as int, u);
    var n := DecodeInt(b);
    assert (if n < 0 then n + 0x1_0000_0000 else n) == u;
  }

  lemma Digits(b0: int, b1: int, b2: int, b3: int, u: int)
    requires 0 <= b0 < 0x100 && 0 <= b1 < 0x100 && 0 <= b2 < 0x100 && 0 <= b3 < 0x100
    requires u == b0 + 0x100 * b1 + 0x1_0000 * b2 + 0x100_0000 * b3
    ensures u % 0x100 == b0 && u / 0x100 % 0x100 == b1 && u / 0x1_0000 % 0x100 == b2 && u / 0x100_0000 == b3
  {
    assert u / 0x100 == b1 + 0x100 * b2 + 0x1_0000 * b3;
    assert u / 0x1_0000 == b2 + 0x100 * b3;
  }

  // ----- The payload of a package

  /** Each value behind its length. */
  function Pack(values: seq<seq<byte>>): seq<byte>
    requires Lengths(values)
  {
    if values == [] then []
    else EncodeInt(|values[0]|) + values[0] + Pack(values[1..])
  }

  predicate Lengths(values: seq<seq<byte>>) {
    forall v :: v in values ==> |v| <= INT_MAX
  }

  /** The values of a payload; none when reading it would run past its end or a length
      is negative, where the program's copies are undefined. */
  function Parse(b: seq<byte>): Option<seq<seq<byte>>>
    decreases |b|
  {
    if b == [] then Some([])
    else if |b| < 4 then None
    else
      var n := DecodeInt(b[..4]);
      if n < 0 || 4 + n > |b| then None
      else match Parse(b[4 + n..])
        case None => None
        case Some(rest) => Some([b[4..4 + n]] + rest)
  }

  lemma {:induction false} ParsePack(values: seq<seq<byte>>)
    requires Lengths(values)
    ensures Parse(Pack(values)) == Some(values)
  {
    hide EncodeInt, DecodeInt;
    if values != [] {
      var n, b := |values[0]|, Pack(values);
      assert values[0] in values && Lengths(values[1..]);
      assert b[..4] == EncodeInt(n) && b[4..4 + n] == values[0] && b[4 + n..] == Pack(values[1..]);
      DecodeEncode(n);
      ParsePack(values[1..]);
      assert [values[0]] + values[1..] == values;
    }
  }

  lemma {:induction false} PackParse(b: seq<byte>)
    requires Parse(b).Some?
    ensures Lengths(Parse(b).value) && Pack(Parse(b).value) == b
    decreases |b|
  {
    hide EncodeInt, DecodeInt, Pack, Lengths, Parse;
    PackNone();
    if b != [] {
      ParseStep(b);
      var n := DecodeInt(b[..4]);
      var head, tail, rest := b[4..4 + n], b[4 + n..], Parse(b[4 + n..]).value;
      PackParse(tail);
      EncodeDecode(b[..4]);
      PackStep(head, rest);
      assert b == b[..4] + head + tail;
    }
  }

  lemma ParseStep(b: seq<byte>)
    requires b != [] && Parse(b).Some?
    ensures |b| >= 4 && 0 <= DecodeInt(b[..4]) <= |b| - 4
    ensures var n := DecodeInt(b[..4]);
            Parse(b[4 + n..]).Some? && Parse(b) == Some([b[4..4 + n]] + Parse(b[4 + n..]).value)
  {
    hide DecodeInt;
  }

  lemma PackNone()
    ensures Lengths([]) && Pack([]) == [] && Parse([]) == Some([])
  {}

  lemma PackStep(head: seq<byte>, rest: seq<seq<byte>>)
    requires |head| <= INT_MAX && Lengths(rest)
    ensures Lengths([head] + rest) && Pack([head] + rest) == EncodeInt(|head|) + head + Pack(rest)
  {
    assert ([head] + rest)[1..] == rest;
  }

  /** A payload parses to exactly the values it was packed from, and only packed
      payloads parse. */
  lemma ParseIff(b: seq<byte>, values: seq<seq<byte>>)
    ensures Parse(b) == Some(values) <==> Lengths(values) && Pack(values) == b
  {
    if Parse(b) == Some(values) {
      PackParse(b);
    }
    if Lengths(values) {
      ParsePack(values);
    }
  }

  lemma {:induction false} PackAppend(values: seq<seq<byte>>, v: seq<byte>)
    requires Lengths(values) && |v| <= INT_MAX
    ensures Lengths(values + [v]) && Pack(values + [v]) == Pack(values) + EncodeInt(|v|) + v
  {
    hide EncodeInt, Pack;
    PackNone();
    if values == [] {
      PackStep(v, []);
      assert values + [v] == [v] + [];
      assert EncodeInt(|v|) + v + [] == [] + EncodeInt(|v|) + v;
    } else {
      var head, rest := values[0], values[1..];
      PackAppend(rest, v);
      PackStep(head, rest);
      PackStep(head, rest + [v]);
      assert values == [head] + rest && values + [v] == [head] + (rest + [v]);
      assert EncodeInt(|head|) + head + (Pack(rest) + EncodeInt(|v|) + v)
          == EncodeInt(|head|) + head + Pack(rest) + EncodeInt(|v|) + v;
    }
  }

  /** `receive_package`, from the payload on: its loop advances an offset and collects values. */
  method ReceivePackage(buffer: seq<byte>) returns (values: Option<seq<seq<byte>>>)
    ensures values == Parse(buffer)
  {
    hide DecodeInt;
    var size, offset := |buffer|, 0;
    var list: seq<seq<byte>> := [];
    assert buffer[0..] == buffer;
    PrependNone(Parse(buffer));
    while offset < size
      invariant 0 <= offset <= size
      invariant Parse(buffer) == Prepend(list, Parse(buffer[offset..]))
      decreases size - offset
    {
      ghost var rest := buffer[offset..];
      if offset + 4 > size {
        return None;
      }
      assert rest[..4] == buffer[offset..offset + 4];
      var n := DecodeInt(buffer[offset..offset + 4]);
      offset := offset + 4;
      if n < 0 || offset + n > size {
        return None;
      }
      assert rest[4..4 + n] == buffer[offset..offset + n] && rest[4 + n..] == buffer[offset + n..];
      var value := buffer[offset..offset + n];
      offset := offset + n;
      PrependOne(list, value, Parse(buffer[offset..]));
      list := list + [value];
    }
    assert buffer[offset..] == [] && list + [] == list;
    return Some(list);
  }

  function Prepend(list: seq<seq<byte>>, rest: Option<seq<seq<byte>>>): Option<seq<seq<byte>>> {
    match rest
    case None => None
    case Some(values) => Some(list + values)
  }

  lemma PrependNone(rest: Option<seq<seq<byte>>>)
    ensures Prepend([], rest) == rest
  {
    if rest.Some? {
      assert [] + rest.value == rest.value;
    }
  }

  lemma PrependOne(list: seq<seq<byte>>, value: seq<byte>, rest: Option<seq<seq<byte>>>)
    ensures Prepend(list + [value], rest) == Prepend(list, Prepend([value], rest))
  {
    if rest.Some? {
      assert list + [value] + rest.value == list + ([value] + rest.value);
    }
  }

  // ----- Whole packages on a stream

  datatype Message = Message(kind: int, values: seq<seq<byte>>)

  /** The message fits: the type is an int, and so is the number of bytes sent. */
  predicate Fits(m: Message) {
    IsInt(m.kind) && Lengths(m.values) && |Pack(m.values)| + 8 <= INT_MAX
  }

  function Serialized(m: Message): (b: seq<byte>)
    requires Fits(m)
    ensures |b| >= 8
  {
    EncodeInt(m.kind) + EncodeInt(|Pack(m.values)|) + Pack(m.values)
  }

  /** One message off the front of a stream: header, then as many bytes as it announces. */
  function ReadMessage(b: seq<byte>): Option<(Message, seq<byte>)> {
    if |b| < 8 then None
    else
      var kind, size := DecodeInt(b[..4]), DecodeInt(b[4..8]);
      if size < 0 || 8 + size > |b| then None
      else match Parse(b[8..8 + size])
        case None => None
        case Some(values) => Some((Message(kind, values), b[8 + size..]))
  }

  lemma ReadSerialized(m: Message, rest: seq<byte>)
    requires Fits(m)
    ensures ReadMessage(Serialized(m) + rest) == Some((m, rest))
  {
    hide EncodeInt, DecodeInt, Pack, Parse;
    var payload := Pack(m.values);
    var b := Serialized(m) + rest;
    assert b[..4] == EncodeInt(m.kind) && b[4..8] == EncodeInt(|payload|);
    assert b[8..8 + |payload|] == payload && b[8 + |payload|..] == rest;
    DecodeEncode(m.kind);
    DecodeEncode(|payload|);
    ParsePack(m.values);
  }

  /** Reading a message and serialising it again gives back the bytes. */
  lemma SerializedRead(b: seq<byte>)
    requires ReadMessage(b).Some? && Fits(ReadMessage(b).value.0)
    ensures var (m, rest) := ReadMessage(b).value; Serialized(m) + rest == b
  {
    hide EncodeInt, DecodeInt, Pack, Parse;
    var size := DecodeInt(b[4..8]);
    var (m, rest) := ReadMessage(b).value;
    PackParse(b[8..8 + size]);
    EncodeDecode(b[..4]);
    EncodeDecode(b[4..8]);
    assert b == b[..4] + b[4..8] + b[8..8 + size] + b[8 + size..];
  }

  function Stream(ms: seq<Message>): seq<byte>
    requires forall m :: m in ms ==> Fits(m)
  {
    if ms == [] then [] else Serialized(ms[0]) + Stream(ms[1..])
  }

  /** All messages of a stream. */
  function Split(b: seq<byte>): Option<seq<Message>>
    decreases |b|
  {
    if b == [] then Some([])
    else match ReadMessage(b)
      case None => None
      case Some((m, rest)) =>
        match Split(rest)
        case None => None
        case Some(ms) => Some([m] + ms)
  }

  /** A concatenation of packages splits back into the same packages. */
  lemma {:induction false} SplitStream(ms: seq<Message>)
    requires forall m :: m in ms ==> Fits(m)
    ensures Split(Stream(ms)) == Some(ms)
  {
    hide Serialized, ReadMessage;
    if ms != [] {
      ReadSerialized(ms[0], Stream(ms[1..]));
      SplitStream(ms[1..]);
      assert [ms[0]] + ms[1..] == ms;
    }
  }

  lemma {:induction false} StreamOfSplit(b: seq<byte>, ms: seq<Message>)
    requires Split(b) == Some(ms) && forall m :: m in ms ==> Fits(m)
    ensures Stream(ms) == b
    decreases |b|
  {
    hide Serialized, ReadMessage;
    if b != [] {
      var (m, rest) := ReadMessage(b).value;
      var tail := Split(rest).value;
      assert ms == [m] + tail;
      assert ms[0] == m && ms[1..] == tail && forall n :: n in tail ==> n in ms;
      SerializedRead(b);
      StreamOfSplit(rest, tail);
    }
  }

  /** A stream splits into exactly the packages it is the concatenation of; no two
      sequences of packages give the same bytes. */
  lemma SplitIff(b: seq<byte>, ms: seq<Message>)
    requires forall m :: m in ms ==> Fits(m)
    ensures Split(b) == Some(ms) <==> Stream(ms) == b
  {
    SplitStream(ms);
    if Split(b) == Some(ms) {
      StreamOfSplit(b, ms);
    }
  }

  // ----- The package under construction

  /** `t_paquete`: the buffer grows with every value that is added. */
  class Package {
    const kind: int
    var dataSize: int
    var stream: array<byte>
    ghost var values: seq<seq<byte>>

    ghost predicate Valid()
      reads this, stream
    {
      && IsInt(kind) && IsInt(dataSize) && Lengths(values)
      && stream.Length == dataSize && stream[..] == Pack(values)
    }

    /** `create_package`. */
    constructor (kind: int)
      requires IsInt(kind)
      ensures Valid() && this.kind == kind && values == [] && dataSize == 0 && fresh(stream)
    {
      this.kind, dataSize, values := kind, 0, [];
      stream := new byte[0];
    }

    /** `add_to_package`: the length, then the value, behind what is already there. */
    method Add(value: seq<byte>)
      requires Valid() && dataSize + |value| + 4 <= INT_MAX
      modifies this
      ensures Valid() && values == old(values) + [value] && fresh(stream)
      ensures dataSize == old(dataSize) + |value| + 4
      ensures stream[..] == old(stream[..]) + EncodeInt(|value|) + value
    {
      hide EncodeInt, Pack;
      var size, prefix := dataSize, EncodeInt(|value|);
      var grown := new byte[size + |value| + 4];
      forall i | 0 <= i < size {
        grown[i] := stream[i];
      }
      forall i | 0 <= i < 4 {
        grown[size + i] := prefix[i];
      }
      forall i | 0 <= i < |value| {
        grown[size + 4 + i] := value[i];
      }
      assert grown[..] == stream[..] + prefix + value;
      PackAppend(values, value);
      stream, dataSize, values := grown, size + |value| + 4, values + [value];
    }

    /** `serialize_package`, with the size that `send_package` passes it. */
    method Serialize() returns (bytes: array<byte>)
      requires Valid() && dataSize + 8 <= INT_MAX
      ensures Fits(Message(kind, values)) && fresh(bytes) && bytes[..] == Serialized(Message(kind, values))
      ensures bytes.Length == dataSize + 8
      ensures bytes[..4] == EncodeInt(kind) && bytes[4..8] == EncodeInt(dataSize) && bytes[8..] == stream[..]
    {
      var first, second := EncodeInt(kind), EncodeInt(dataSize);
      bytes := new byte[dataSize + 8];
      forall i | 0 <= i < 4 {
        bytes[i] := first[i];
      }
      forall i | 0 <= i < 4 {
        bytes[4 + i] := second[i];
      }
      forall i | 0 <= i < dataSize {
        bytes[8 + i] := stream[i];
      }
      assert bytes[..] == first + second + stream[..];
    }
  }
}
