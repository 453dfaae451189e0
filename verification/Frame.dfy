/** src/frame.rs: the length-prefixed codec, four big-endian length bytes
    followed by that many body bytes. */
module Frame {
  import opened Wrappers

  const LENGTH_PREFIX_BYTE_COUNT: nat := 4

  type byte = b: int | 0 <= b < 256

  datatype EncodeResult = Encoded(frame: seq<byte>) | BodyTooLarge(found: nat)

  datatype ReadResult = Read(body: seq<byte>) | TooLarge(found: nat) | UnexpectedEof

  // ---------- big-endian lengths ----------

  function ToBigEndian(n: nat): (bytes: seq<byte>)
    requires n <= U32_MAX
    ensures |bytes| == LENGTH_PREFIX_BYTE_COUNT
  {
    [n / 0x100_0000, n / 0x1_0000 % 256, n / 256 % 256, n % 256]
  }

  function FromBigEndian(bytes: seq<byte>): (n: nat)
    requires |bytes| == LENGTH_PREFIX_BYTE_COUNT
    ensures n <= U32_MAX
  {
    var b0: int, b1: int, b2: int, b3: int := bytes[0], bytes[1], bytes[2], bytes[3];
    b0 * 0x100_0000 + b1 * 0x1_0000 + b2 * 256 + b3
  }

  lemma LengthSurvives(n: nat)
    requires n <= U32_MAX
    ensures FromBigEndian(ToBigEndian(n)) == n
  {
    assert n / 256 / 256 == n / 0x1_0000;
    assert n / 0x1_0000 / 256 == n / 0x100_0000;
  }

  lemma BytesSurvive(bytes: seq<byte>)
    requires |bytes| == LENGTH_PREFIX_BYTE_COUNT
    ensures ToBigEndian(FromBigEndian(bytes)) == bytes
  {
    var n := FromBigEndian(bytes);
    var b0: int, b1: int, b2: int := bytes[0], bytes[1], bytes[2];
    assert n / 256 == b0 * 0x1_0000 + b1 * 256 + b2;
    assert n / 0x1_0000 == b0 * 256 + b1;
    assert n / 0x100_0000 == b0;
  }

  /** The value of digits to base 256, most significant first. */
  function Positional(bytes: seq<byte>): nat
  {
    if bytes == [] then 0 else Positional(bytes[..|bytes| - 1]) * 256 + bytes[|bytes| - 1] as int
  }

  /** The prefix is big-endian. */
  lemma {:induction false} PrefixIsPositional(bytes: seq<byte>)
    requires |bytes| == LENGTH_PREFIX_BYTE_COUNT
    ensures FromBigEndian(bytes) == Positional(bytes)
  {
    var a, b, c := bytes[..3], bytes[..2], bytes[..1];
    assert a[..2] == b && b[..1] == c && c[..0] == [];
    assert Positional(c) == bytes[0] as int;
    assert Positional(b) == bytes[0] as int * 256 + bytes[1] as int;
    assert Positional(a) == (bytes[0] as int * 256 + bytes[1] as int) * 256 + bytes[2] as int;
  }

  // ---------- encoding and decoding as functions of byte strings ----------

  function FrameOf(body: seq<byte>): (frame: seq<byte>)
    requires |body| <= U32_MAX
    ensures |frame| == LENGTH_PREFIX_BYTE_COUNT + |body|
  {
    ToBigEndian(|body|) + body
  }

  predicate Accepts(maximum: nat, length: nat)
  {
    length <= maximum
  }

  /** `encode_body`: the codec's own maximum first, then the prefix range. */
  function Encode(maximum: nat, body: seq<byte>): EncodeResult
  {
    if !Accepts(maximum, |body|) then BodyTooLarge(|body|)
    else if |body| > U32_MAX then BodyTooLarge(|body|)
    else Encoded(FrameOf(body))
  }

  /** `read_body` on a stream holding `bytes`, and what it leaves unread. After
      an end of input nothing is left. */
  function Decode(maximum: nat, bytes: seq<byte>): (ReadResult, seq<byte>)
  {
    if |bytes| < LENGTH_PREFIX_BYTE_COUNT then (UnexpectedEof, [])
    else
      var length, rest := FromBigEndian(bytes[..LENGTH_PREFIX_BYTE_COUNT]), bytes[LENGTH_PREFIX_BYTE_COUNT..];
      if !Accepts(maximum, length) then (TooLarge(length), rest)
      else if |rest| < length then (UnexpectedEof, [])
      else (Read(rest[..length]), rest[length..])
  }

  lemma EncodeSucceedsIff(maximum: nat, body: seq<byte>)
    ensures Encode(maximum, body).Encoded? <==> |body| <= maximum && |body| <= U32_MAX
    ensures Encode(maximum, body).Encoded? ==> |Encode(maximum, body).frame| == |body| + 4
    ensures !Encode(maximum, body).Encoded? ==> Encode(maximum, body) == BodyTooLarge(|body|)
  {
  }

  /** A frame written under any maximum is read back whole by a codec that
      accepts its length, and refused by its length otherwise; the reader never
      touches what follows the frame. */
  lemma FrameRoundTrip(maximum: nat, body: seq<byte>, tail: seq<byte>)
    requires |body| <= U32_MAX
    ensures Decode(maximum, FrameOf(body) + tail) ==
      if |body| <= maximum then (Read(body), tail) else (TooLarge(|body|), body + tail)
  {
    var bytes := FrameOf(body) + tail;
    LengthSurvives(|body|);
    assert bytes[..LENGTH_PREFIX_BYTE_COUNT] == ToBigEndian(|body|);
    assert bytes[LENGTH_PREFIX_BYTE_COUNT..] == body + tail;
  }

  /** A successful read consumed exactly the encoding of its result. */
  lemma ReadConsumesEncoding(maximum: nat, bytes: seq<byte>)
    requires Decode(maximum, bytes).0.Read?
    ensures var (result, rest) := Decode(maximum, bytes);
      && Encode(maximum, result.body).Encoded?
      && bytes == Encode(maximum, result.body).frame + rest
  {
    var length, after := FromBigEndian(bytes[..LENGTH_PREFIX_BYTE_COUNT]), bytes[LENGTH_PREFIX_BYTE_COUNT..];
    BytesSurvive(bytes[..LENGTH_PREFIX_BYTE_COUNT]);
    assert after == after[..length] + after[length..];
    assert bytes == bytes[..LENGTH_PREFIX_BYTE_COUNT] + after;
  }

  /** Frames are prefix-free: cut anywhere short, a frame does not decode. */
  lemma {:induction false} StrictPrefixFails(maximum: nat, body: seq<byte>, cut: nat)
    requires |body| <= maximum && |body| <= U32_MAX && cut < |FrameOf(body)|
    ensures Decode(maximum, FrameOf(body)[..cut]) == (UnexpectedEof, [])
  {
    if cut >= LENGTH_PREFIX_BYTE_COUNT {
      LengthSurvives(|body|);
      assert FrameOf(body)[..cut][..LENGTH_PREFIX_BYTE_COUNT] == ToBigEndian(|body|);
    }
  }

  /** What an announced length leads to, whatever follows it: too much is refused
      with nothing after the prefix read, and too little following is the end of
      input. Without a whole prefix nothing else is looked at. */
  lemma {:induction false} LengthDecides(maximum: nat, length: nat, rest: seq<byte>)
    requires length <= U32_MAX
    ensures length > maximum ==> Decode(maximum, ToBigEndian(length) + rest) == (TooLarge(length), rest)
    ensures length <= maximum && |rest| < length ==> Decode(maximum, ToBigEndian(length) + rest) == (UnexpectedEof, [])
    ensures |rest| < LENGTH_PREFIX_BYTE_COUNT ==> Decode(maximum, rest) == (UnexpectedEof, [])
  {
    var bytes := ToBigEndian(length) + rest;
    LengthSurvives(length);
    assert bytes[..LENGTH_PREFIX_BYTE_COUNT] == ToBigEndian(length);
    assert bytes[LENGTH_PREFIX_BYTE_COUNT..] == rest;
  }

  // ---------- whole streams ----------

  predicate AllFit(maximum: nat, bodies: seq<seq<byte>>)
  {
    forall i :: 0 <= i < |bodies| ==> Encode(maximum, bodies[i]).Encoded?
  }

  function EncodeStream(maximum: nat, bodies: seq<seq<byte>>): seq<byte>
    requires AllFit(maximum, bodies)
  {
    if bodies == [] then [] else Encode(maximum, bodies[0]).frame + EncodeStream(maximum, bodies[1..])
  }

  /** Up to `count` reads in a row, stopping at the first failure. */
  function DecodeStream(maximum: nat, bytes: seq<byte>, count: nat): (seq<seq<byte>>, seq<byte>)
    decreases count
  {
    if count == 0 || !Decode(maximum, bytes).0.Read? then ([], bytes)
    else
      var (first, rest) := Decode(maximum, bytes);
      var (bodies, tail) := DecodeStream(maximum, rest, count - 1);
      ([first.body] + bodies, tail)
  }

  lemma ConcatAssociates(a: seq<byte>, b: seq<byte>, c: seq<byte>)
    ensures (a + b) + c == a + (b + c)
  {
  }

  lemma ReadThenRest(maximum: nat, bytes: seq<byte>, body: seq<byte>, rest: seq<byte>, count: nat)
    requires Decode(maximum, bytes) == (Read(body), rest)
    ensures DecodeStream(maximum, bytes, count + 1)
         == ([body] + DecodeStream(maximum, rest, count).0, DecodeStream(maximum, rest, count).1)
  {
  }

  lemma StreamCons(maximum: nat, body: seq<byte>, bodies: seq<seq<byte>>)
    requires Encode(maximum, body).Encoded? && AllFit(maximum, bodies)
    ensures AllFit(maximum, [body] + bodies)
    ensures EncodeStream(maximum, [body] + bodies) == FrameOf(body) + EncodeStream(maximum, bodies)
  {
    assert ([body] + bodies)[1..] == bodies;
  }

  /** Reading back a concatenation of frames gives exactly the bodies written,
      in order, and leaves the tail. */
  lemma {:induction false} StreamRoundTrip(maximum: nat, bodies: seq<seq<byte>>, tail: seq<byte>)
    requires AllFit(maximum, bodies)
    ensures DecodeStream(maximum, EncodeStream(maximum, bodies) + tail, |bodies|) == (bodies, tail)
    decreases |bodies|
  {
    if bodies == [] {
      assert EncodeStream(maximum, bodies) + tail == tail;
    } else {
      var after := EncodeStream(maximum, bodies[1..]) + tail;
      ConcatAssociates(FrameOf(bodies[0]), EncodeStream(maximum, bodies[1..]), tail);
      FrameRoundTrip(maximum, bodies[0], after);
      StreamRoundTrip(maximum, bodies[1..], tail);
      ReadThenRest(maximum, EncodeStream(maximum, bodies) + tail, bodies[0], after, |bodies| - 1);
      assert bodies == [bodies[0]] + bodies[1..];
    }
  }

  lemma PrependRead(maximum: nat, bytes: seq<byte>, body: seq<byte>, rest: seq<byte>,
                    bodies: seq<seq<byte>>, tail: seq<byte>)
    requires Encode(maximum, body).Encoded? && AllFit(maximum, bodies)
    requires bytes == FrameOf(body) + rest && rest == EncodeStream(maximum, bodies) + tail
    ensures AllFit(maximum, [body] + bodies)
    ensures bytes == EncodeStream(maximum, [body] + bodies) + tail
  {
    StreamCons(maximum, body, bodies);
    ConcatAssociates(FrameOf(body), EncodeStream(maximum, bodies), tail);
  }

  predicate Accounted(maximum: nat, bytes: seq<byte>, bodies: seq<seq<byte>>, tail: seq<byte>)
  {
    AllFit(maximum, bodies) && bytes == EncodeStream(maximum, bodies) + tail
  }

  lemma {:induction false} ReadExtendsAccount(maximum: nat, bytes: seq<byte>, body: seq<byte>, rest: seq<byte>, count: nat)
    requires Decode(maximum, bytes) == (Read(body), rest)
    requires Accounted(maximum, rest, DecodeStream(maximum, rest, count).0, DecodeStream(maximum, rest, count).1)
    ensures Accounted(maximum, bytes, DecodeStream(maximum, bytes, count + 1).0, DecodeStream(maximum, bytes, count + 1).1)
  {
    ReadConsumesEncoding(maximum, bytes);
    ReadThenRest(maximum, bytes, body, rest, count);
    var (bodies, tail) := DecodeStream(maximum, rest, count);
    PrependRead(maximum, bytes, body, rest, bodies, tail);
  }

  /** Conversely, whatever bytes arrive, the bodies read and what is left
      account for every byte: nothing is skipped and nothing is read twice. */
  lemma {:induction false} StreamReadsAccountForBytes(maximum: nat, bytes: seq<byte>, count: nat)
    ensures var (bodies, tail) := DecodeStream(maximum, bytes, count);
      Accounted(maximum, bytes, bodies, tail)
    decreases count
  {
    var (result, rest) := Decode(maximum, bytes);
    if count > 0 && result.Read? {
      StreamReadsAccountForBytes(maximum, rest, count - 1);
      ReadExtendsAccount(maximum, bytes, result.body, rest, count - 1);
    } else {
      assert DecodeStream(maximum, bytes, count) == ([], bytes);
    }
  }

  /** The encoding of a list of bodies determines the list. */
  lemma StreamsAreUnambiguous(maximum: nat, a: seq<seq<byte>>, b: seq<seq<byte>>)
    requires AllFit(maximum, a) && AllFit(maximum, b)
    requires EncodeStream(maximum, a) == EncodeStream(maximum, b)
    ensures a == b
  {
    if |a| <= |b| {
      StreamPrefix(maximum, a, b);
    } else {
      StreamPrefix(maximum, b, a);
    }
  }

  lemma {:induction false} StreamPrefix(maximum: nat, a: seq<seq<byte>>, b: seq<seq<byte>>)
    requires AllFit(maximum, a) && AllFit(maximum, b) && |a| <= |b|
    requires EncodeStream(maximum, a) == EncodeStream(maximum, b)
    ensures a == b
    decreases |a|
  {
    if a != [] {
      FrameRoundTrip(maximum, a[0], EncodeStream(maximum, a[1..]));
      FrameRoundTrip(maximum, b[0], EncodeStream(maximum, b[1..]));
      StreamPrefix(maximum, a[1..], b[1..]);
      assert a == [a[0]] + a[1..] && b == [b[0]] + b[1..];
    }
  }

  // ---------- readers, writers and the codec ----------

  function Concat(chunks: seq<seq<byte>>): seq<byte>
  {
    if chunks == [] then [] else chunks[0] + Concat(chunks[1..])
  }

  /** A byte stream that arrives in pieces: each call of `read` sees at most the
      next piece, as a socket does. */
  class ByteReader {
    var chunks: seq<seq<byte>>

    constructor (chunks: seq<seq<byte>>)
      requires forall i :: 0 <= i < |chunks| ==> chunks[i] != []
      ensures Valid() && this.chunks == chunks
    {
      this.chunks := chunks;
    }

    ghost predicate Valid()
      reads this
    {
      forall i :: 0 <= i < |chunks| ==> chunks[i] != []
    }

    ghost function Pending(): seq<byte>
      reads this
    {
      Concat(chunks)
    }

    /** One `read` into a buffer of `room` bytes. */
    method ReadSome(room: nat) returns (got: seq<byte>)
      requires Valid() && room > 0
      modifies this
      ensures Valid() && |got| <= room
      ensures old(Pending()) == got + Pending()
      ensures got == [] <==> old(Pending()) == []
    {
      if chunks == [] {
        return [];
      }
      var chunk, others := chunks[0], chunks[1..];
      if |chunk| <= room {
        got, chunks := chunk, others;
      } else {
        got := chunk[..room];
        chunks := [chunk[room..]] + others;
        assert chunks[1..] == others;
        assert chunk == got + chunk[room..];
      }
    }

    /** `read_exact`: fill a buffer of `size` bytes or report the end of input. */
    method ReadExact(size: nat) returns (ok: bool, buffer: seq<byte>)
      requires Valid()
      modifies this
      ensures Valid()
      ensures ok <==> |old(Pending())| >= size
      ensures ok ==> buffer == old(Pending())[..size] && Pending() == old(Pending())[size..]
      ensures !ok ==> Pending() == []
    {
      ghost var all := Pending();
      buffer := [];
      while |buffer| < size
        invariant Valid() && |buffer| <= size
        invariant all == buffer + Pending()
        decreases size - |buffer|
      {
        var got := ReadSome(size - |buffer|);
        if got == [] {
          return false, buffer;
        }
        buffer := buffer + got;
      }
      ok := true;
    }
  }

  class LengthPrefixedCodec {
    const maximum: nat

    constructor (maximum: nat)
      ensures this.maximum == maximum
    {
      this.maximum := maximum;
    }

    constructor Default()
      ensures maximum == U32_MAX
    {
      maximum := U32_MAX;
    }

    method ValidateLength(length: nat) returns (accepted: bool)
      ensures accepted <==> Accepts(maximum, length)
    {
      accepted := length <= maximum;
    }

    method EncodeBody(body: seq<byte>) returns (result: EncodeResult)
      ensures result == Encode(maximum, body)
    {
      var accepted := ValidateLength(|body|);
      if !accepted || |body| > U32_MAX {
        return BodyTooLarge(|body|);
      }
      var frame: seq<byte> := [];
      frame := frame + ToBigEndian(|body|);
      frame := frame + body;
      result := Encoded(frame);
    }

    /** `read_body` and `read_body_async`: the result and what stays unread
        depend only on the bytes, not on how they were cut into pieces. */
    method ReadBody(reader: ByteReader) returns (result: ReadResult)
      requires reader.Valid()
      modifies reader
      ensures reader.Valid()
      ensures (result, reader.Pending()) == Decode(maximum, old(reader.Pending()))
    {
      var ok, prefix := reader.ReadExact(LENGTH_PREFIX_BYTE_COUNT);
      if !ok {
        return UnexpectedEof;
      }
      var length := FromBigEndian(prefix);
      var accepted := ValidateLength(length);
      if !accepted {
        return TooLarge(length);
      }
      var body;
      ok, body := reader.ReadExact(length);
      result := if ok then Read(body) else UnexpectedEof;
    }
  }
}
