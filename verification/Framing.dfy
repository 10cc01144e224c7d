/** Stream framing: four bytes of big-endian body length, then the serialized envelope.
    Protobuf is a pair of functions, parse and serialize, over an arbitrary envelope type. */
module Framing {
  import opened Options

  type Byte = b: int | 0 <= b < 256
  type Bytes = seq<Byte>

  const HeaderLength := 4
  const MaxFrameLength := 1024 * 1024

  /** The k low bytes of n, highest first. */
  function BigEndian(n: nat, k: nat): (h: Bytes)
    ensures |h| == k
  {
    if k == 0 then [] else BigEndian(n / 256, k - 1) + [n % 256]
  }

  function FromBigEndian(h: Bytes): nat {
    if h == [] then 0 else FromBigEndian(h[..|h| - 1]) * 256 + h[|h| - 1] as int
  }

  lemma {:induction false} BigEndianRoundTrip(n: nat, k: nat, limit: nat)
    requires limit == Power256(k) && n < limit
    ensures FromBigEndian(BigEndian(n, k)) == n
  {
    if k > 0 {
      BigEndianRoundTrip(n / 256, k - 1, Power256(k - 1));
      assert BigEndian(n, k)[..k - 1] == BigEndian(n / 256, k - 1);
    }
  }

  function Power256(k: nat): nat {
    if k == 0 then 1 else 256 * Power256(k - 1)
  }

  /** The header of a body: its length in 32 bits, in network order. */
  function Header(n: nat): (h: Bytes)
    ensures |h| == HeaderLength
  {
    BigEndian(n, HeaderLength)
  }

  lemma HeaderRoundTrip(n: nat)
    requires n < 0x1_0000_0000
    ensures FromBigEndian(Header(n)) == n
  {
    assert Power256(1) == 256 && Power256(2) == 0x1_0000 && Power256(3) == 0x100_0000;
    BigEndianRoundTrip(n, 4, 0x1_0000_0000);
  }

  /** Highest byte first. */
  lemma HeaderBytes(n: nat)
    requires n < 0x1_0000_0000
    ensures Header(n) == [n / 0x100_0000, n / 0x1_0000 % 256, n / 0x100 % 256, n % 256]
  {
    var a, b, c := n / 256, n / 256 / 256, n / 256 / 256 / 256;
    assert b == n / 0x1_0000 && c == n / 0x100_0000;
    assert BigEndian(c, 1) == BigEndian(c / 256, 0) + [c % 256] == [c];
    assert BigEndian(b, 2) == BigEndian(c, 1) + [b % 256];
    assert BigEndian(a, 3) == BigEndian(b, 2) + [a % 256];
    assert BigEndian(n, 4) == BigEndian(a, 3) + [n % 256];
  }

  // ------------------------------------------------------------------- decoding

  datatype Status = Ok | NeedMoreData | InvalidLength | ParseError

  datatype Decoded<E> = Decoded(status: Status, envelopes: seq<E>, consumed: nat)

  predicate IsError(s: Status) { s == InvalidLength || s == ParseError }

  /** What stands at the front of a non-empty buffer. */
  datatype Front<E> = Stuck(status: Status) | Frame(envelope: E, length: nat)

  function Next<E>(data: Bytes, max: nat, parse: Bytes -> Option<E>): (f: Front<E>)
    ensures f.Frame? ==> HeaderLength < f.length <= |data|
    ensures f.Stuck? ==> f.status != Ok
  {
    if |data| < HeaderLength then Stuck(NeedMoreData)
    else
      var n := FromBigEndian(data[..HeaderLength]);
      if n == 0 || n > max then Stuck(InvalidLength)
      else if |data| < HeaderLength + n then Stuck(NeedMoreData)
      else match parse(data[HeaderLength..HeaderLength + n])
        case None => Stuck(ParseError)
        case Some(e) => Frame(e, HeaderLength + n)
  }

  /** The frames of a buffer, one after the other, up to the first that is not there. */
  function Decode<E>(data: Bytes, max: nat, parse: Bytes -> Option<E>): (d: Decoded<E>)
    ensures d.consumed <= |data|
    decreases |data|
  {
    if data == [] then Decoded(Ok, [], 0)
    else match Next(data, max, parse)
      case Stuck(status) => Decoded(status, [], 0)
      case Frame(e, n) =>
        var d := Decode(data[n..], max, parse);
        Decoded(d.status, [e] + d.envelopes, n + d.consumed)
  }

  function Rest<E>(data: Bytes, max: nat, parse: Bytes -> Option<E>): Bytes {
    data[Decode(data, max, parse).consumed..]
  }

  function After<E>(envelopes: seq<E>, used: nat, d: Decoded<E>): Decoded<E> {
    Decoded(d.status, envelopes + d.envelopes, used + d.consumed)
  }

  /** The front of the buffer from an offset on. */
  lemma NextAt<E>(data: Bytes, offset: nat, max: nat, parse: Bytes -> Option<E>)
    requires offset <= |data|
    ensures var f, left := Next(data[offset..], max, parse), |data| - offset;
            if left < HeaderLength then f == Stuck(NeedMoreData)
            else
              var n := FromBigEndian(data[offset..offset + HeaderLength]);
              if n == 0 || n > max then f == Stuck(InvalidLength)
              else if left < HeaderLength + n then f == Stuck(NeedMoreData)
              else match parse(data[offset + HeaderLength..offset + HeaderLength + n])
                case None => f == Stuck(ParseError)
                case Some(e) => f == Frame(e, HeaderLength + n)
  {
    if |data| - offset >= HeaderLength {
      assert data[offset..][..HeaderLength] == data[offset..offset + HeaderLength];
      var n := FromBigEndian(data[offset..offset + HeaderLength]);
      if |data| - offset >= HeaderLength + n {
        assert data[offset..][HeaderLength..HeaderLength + n] == data[offset + HeaderLength..offset + HeaderLength + n];
      }
    }
  }

  /** The same as a loop over an offset. */
  function Loop<E>(data: Bytes, offset: nat, envelopes: seq<E>, max: nat, parse: Bytes -> Option<E>): Decoded<E>
    decreases |data| - offset
  {
    if offset >= |data| then Decoded(Ok, envelopes, offset)
    else if |data| - offset < HeaderLength then Decoded(NeedMoreData, envelopes, offset)
    else
      var n := FromBigEndian(data[offset..offset + HeaderLength]);
      if n == 0 || n > max then Decoded(InvalidLength, envelopes, offset)
      else if |data| - offset < HeaderLength + n then Decoded(NeedMoreData, envelopes, offset)
      else match parse(data[offset + HeaderLength..offset + HeaderLength + n])
        case None => Decoded(ParseError, envelopes, offset)
        case Some(e) => Loop(data, offset + HeaderLength + n, envelopes + [e], max, parse)
  }

  lemma LoopTurn<E>(data: Bytes, offset: nat, envelopes: seq<E>, max: nat, parse: Bytes -> Option<E>)
    requires offset < |data|
    ensures Loop(data, offset, envelopes, max, parse)
         == match Next(data[offset..], max, parse)
            case Stuck(status) => Decoded(status, envelopes, offset)
            case Frame(e, n) => Loop(data, offset + n, envelopes + [e], max, parse)
  {
    NextAt(data, offset, max, parse);
  }

  /** From this offset on the loop adds what Decode finds in the rest of the data. */
  ghost predicate LoopAgrees<E>(data: Bytes, offset: nat, envelopes: seq<E>, max: nat, parse: Bytes -> Option<E>)
    requires offset <= |data|
  {
    Loop(data, offset, envelopes, max, parse) == After(envelopes, offset, Decode(data[offset..], max, parse))
  }

  lemma {:induction false} LoopIs<E>(data: Bytes, offset: nat, envelopes: seq<E>, max: nat, parse: Bytes -> Option<E>)
    requires offset <= |data|
    ensures LoopAgrees(data, offset, envelopes, max, parse)
    decreases |data| - offset
  {
    if offset == |data| {
      assert data[offset..] == [];
      AfterNothing(envelopes, offset, Ok);
    } else {
      match Next(data[offset..], max, parse)
      case Stuck(status) =>
        NextAt(data, offset, max, parse);
        AfterNothing(envelopes, offset, status);
      case Frame(e, n) =>
        LoopIs(data, offset + n, envelopes + [e], max, parse);
        LoopFrame(data, offset, envelopes, max, parse);
    }
  }

  lemma LoopFrame<E>(data: Bytes, offset: nat, envelopes: seq<E>, max: nat, parse: Bytes -> Option<E>)
    requires offset < |data| && Next(data[offset..], max, parse).Frame?
    requires var f := Next(data[offset..], max, parse);
             LoopAgrees(data, offset + f.length, envelopes + [f.envelope], max, parse)
    ensures LoopAgrees(data, offset, envelopes, max, parse)
  {
    var f := Next(data[offset..], max, parse);
    LoopTurn(data, offset, envelopes, max, parse);
    DecodeAt(data, offset, max, parse);
    AfterMore(envelopes, offset, f.envelope, f.length, Loop(data, offset, envelopes, max, parse),
              Decode(data[offset..], max, parse), Decode(data[offset + f.length..], max, parse));
  }

  lemma DecodeAt<E>(data: Bytes, offset: nat, max: nat, parse: Bytes -> Option<E>)
    requires offset < |data|
    ensures Decode(data[offset..], max, parse)
         == match Next(data[offset..], max, parse)
            case Stuck(status) => Decoded(status, [], 0)
            case Frame(e, n) => After([e], n, Decode(data[offset + n..], max, parse))
  {
    var f := Next(data[offset..], max, parse);
    if f.Frame? { assert data[offset..][f.length..] == data[offset + f.length..]; }
  }

  lemma AfterNothing<E>(envelopes: seq<E>, offset: nat, status: Status)
    ensures After(envelopes, offset, Decoded(status, [], 0)) == Decoded(status, envelopes, offset)
  {
    assert envelopes + [] == envelopes;
  }

  lemma AfterMore<E>(envelopes: seq<E>, offset: nat, e: E, n: nat, l: Decoded<E>, d: Decoded<E>, rest: Decoded<E>)
    requires l == After(envelopes + [e], offset + n, rest) && d == After([e], n, rest)
    ensures l == After(envelopes, offset, d)
  {
    assert envelopes + ([e] + rest.envelopes) == envelopes + [e] + rest.envelopes;
  }

  lemma LoopDecodes<E>(data: Bytes, max: nat, parse: Bytes -> Option<E>)
    ensures Loop(data, 0, [], max, parse) == Decode(data, max, parse)
  {
    LoopIs(data, 0, [], max, parse);
    var d := Decode(data, max, parse);
    assert data[0..] == data && [] + d.envelopes == d.envelopes;
  }

  /** MessageCodec::DecodeAll. */
  method DecodeAll<E>(data: Bytes, max: nat, parse: Bytes -> Option<E>) returns (result: Decoded<E>)
    ensures result == Decode(data, max, parse)
  {
    LoopDecodes(data, max, parse);
    ghost var whole := Decode(data, max, parse);
    var envelopes, offset := [], 0;
    while offset < |data|
      invariant offset <= |data|
      invariant whole == Loop(data, offset, envelopes, max, parse)
    {
      var remaining := |data| - offset;
      if remaining < HeaderLength { return Decoded(NeedMoreData, envelopes, offset); }
      var bodyLength := FromBigEndian(data[offset..offset + HeaderLength]);
      if bodyLength == 0 || bodyLength > max { return Decoded(InvalidLength, envelopes, offset); }
      var frameLength := HeaderLength + bodyLength;
      if remaining < frameLength { return Decoded(NeedMoreData, envelopes, offset); }
      var envelope := parse(data[offset + HeaderLength..offset + HeaderLength + bodyLength]);
      if envelope.None? { return Decoded(ParseError, envelopes, offset); }
      envelopes := envelopes + [envelope.value];
      offset := offset + frameLength;
    }
    return Decoded(Ok, envelopes, offset);
  }

  /** ImProtocol.decode; None is an exception. It throws exactly when DecodeAll reports an error,
      and otherwise returns the same envelopes and the bytes DecodeAll leaves. (Its limit is the
      constant MaxFrameLength.) */
  method DecodeOrThrow<E>(buffer: Bytes, max: nat, parse: Bytes -> Option<E>) returns (result: Option<(seq<E>, Bytes)>)
    ensures var d := Decode(buffer, max, parse);
            result == if IsError(d.status) then None else Some((d.envelopes, buffer[d.consumed..]))
  {
    LoopDecodes(buffer, max, parse);
    ghost var whole := Decode(buffer, max, parse);
    var envelopes, offset := [], 0;
    while |buffer| - offset >= 4
      invariant offset <= |buffer|
      invariant whole == Loop(buffer, offset, envelopes, max, parse)
    {
      var bodyLength := FromBigEndian(buffer[offset..offset + 4]);
      if bodyLength == 0 || bodyLength > max { return None; }
      var frameLength := 4 + bodyLength;
      if |buffer| - offset < frameLength {
        assert whole == Decoded(NeedMoreData, envelopes, offset);
        break;
      }
      var decoded := parse(buffer[offset + 4..offset + 4 + bodyLength]);
      if decoded.None? { return None; }
      envelopes := envelopes + [decoded.value];
      offset := offset + frameLength;
    }
    assert whole == Decoded(whole.status, envelopes, offset) && !IsError(whole.status);
    return Some((envelopes, buffer[offset..]));
  }

  // ------------------------------------------------------- more bytes later

  lemma NextExtends<E>(a: Bytes, b: Bytes, max: nat, parse: Bytes -> Option<E>)
    requires Next(a, max, parse) != Stuck(NeedMoreData)
    ensures Next(a + b, max, parse) == Next(a, max, parse)
  {
    assert (a + b)[..HeaderLength] == a[..HeaderLength];
    var n := FromBigEndian(a[..HeaderLength]);
    if |a| >= HeaderLength + n { assert (a + b)[HeaderLength..HeaderLength + n] == a[HeaderLength..HeaderLength + n]; }
  }

  /** Decoding a and then b behind what a left is decoding a + b; and what is decoded of a buffer
      with a bad frame does not depend on the bytes that follow. */
  lemma {:induction false} DecodeSplit<E>(a: Bytes, b: Bytes, max: nat, parse: Bytes -> Option<E>)
    ensures var d := Decode(a, max, parse);
            Decode(a + b, max, parse)
            == if IsError(d.status) then d else After(d.envelopes, d.consumed, Decode(a[d.consumed..] + b, max, parse))
    decreases |a|
  {
    if a == [] || Next(a, max, parse) == Stuck(NeedMoreData) {
      assert a[0..] + b == a + b;
    } else {
      NextExtends(a, b, max, parse);
      if Next(a, max, parse).Frame? {
        DecodeSplit(a[Next(a, max, parse).length..], b, max, parse);
        SplitFrame(a, b, max, parse);
      }
    }
  }

  lemma SplitFrame<E>(a: Bytes, b: Bytes, max: nat, parse: Bytes -> Option<E>)
    requires a != [] && Next(a, max, parse).Frame? && Next(a + b, max, parse) == Next(a, max, parse)
    ensures var f, d := Next(a, max, parse), Decode(a, max, parse);
            var t := a[f.length..];
            var e := Decode(t, max, parse);
            && t[e.consumed..] == a[d.consumed..]
            && Decode(a, max, parse) == After([f.envelope], f.length, e)
            && Decode(a + b, max, parse) == After([f.envelope], f.length, Decode(t + b, max, parse))
            && forall g: Decoded<E> :: After([f.envelope], f.length, After(e.envelopes, e.consumed, g))
                                       == After(d.envelopes, d.consumed, g)
  {
    var f := Next(a, max, parse);
    var t := a[f.length..];
    assert (a + b)[f.length..] == t + b;
    var e := Decode(t, max, parse);
    forall g: Decoded<E>
      ensures After([f.envelope], f.length, After(e.envelopes, e.consumed, g)) == After([f.envelope] + e.envelopes, f.length + e.consumed, g)
    {
      assert [f.envelope] + (e.envelopes + g.envelopes) == [f.envelope] + e.envelopes + g.envelopes;
    }
  }

  /** What is left starts where decoding stopped: nothing more can be taken from it. */
  lemma {:induction false} RestStuck<E>(data: Bytes, max: nat, parse: Bytes -> Option<E>)
    ensures var d := Decode(data, max, parse);
            Decode(data[d.consumed..], max, parse) == Decoded(d.status, [], 0)
    decreases |data|
  {
    if data != [] {
      var f := Next(data, max, parse);
      if f.Frame? {
        var t := data[f.length..];
        RestStuck(t, max, parse);
        assert t[Decode(t, max, parse).consumed..] == data[Decode(data, max, parse).consumed..];
      }
    }
  }

  /** Without an error less than one frame is left over. */
  lemma RestBounded<E>(data: Bytes, max: nat, parse: Bytes -> Option<E>)
    requires !IsError(Decode(data, max, parse).status)
    ensures |Rest(data, max, parse)| < HeaderLength + max
    ensures Decode(data, max, parse).status == Ok <==> Rest(data, max, parse) == []
  {
    RestStuck(data, max, parse);
  }

  // ------------------------------------------------------------------- encoding

  /** MessageCodec::Encode and ImProtocol.encode: the length field is the low 32 bits of the body size. */
  function EncodeBody(body: Bytes): Bytes {
    Header(|body| % 0x1_0000_0000) + body
  }

  /** A failed serialization gives an empty frame. */
  function Encode<E>(e: E, serialize: E -> Option<Bytes>): Bytes {
    match serialize(e) case None => [] case Some(body) => EncodeBody(body)
  }

  lemma NextEncoded<E>(body: Bytes, more: Bytes, max: nat, parse: Bytes -> Option<E>)
    requires max < 0x1_0000_0000
    ensures var n := |body| % 0x1_0000_0000;
            Next(EncodeBody(body) + more, max, parse)
            == if n == 0 || n > max then Stuck(InvalidLength)
               else match parse(body[..n]) case None => Stuck(ParseError) case Some(e) => Frame(e, HeaderLength + n)
  {
    var n := |body| % 0x1_0000_0000;
    var data := EncodeBody(body) + more;
    HeaderRoundTrip(n);
    assert data[..HeaderLength] == Header(n);
    assert n <= |body|;
    assert data[HeaderLength..HeaderLength + n] == body[..n];
  }

  /** One frame comes back as itself exactly when its body has between 1 and max bytes: an empty
      body, an oversized one, and one whose length wraps around 32 bits all fail. */
  lemma FrameRoundTrip<E>(e: E, body: Bytes, max: nat, parse: Bytes -> Option<E>)
    requires parse(body) == Some(e) && max < 0x1_0000_0000
    ensures Decode(EncodeBody(body), max, parse) == Decoded(Ok, [e], |EncodeBody(body)|) <==> 1 <= |body| <= max
  {
    var data, n := EncodeBody(body), |body| % 0x1_0000_0000;
    NextEncoded(body, [], max, parse);
    assert data + [] == data;
    if 1 <= |body| <= max {
      assert body[..n] == body && data[|data|..] == [];
    } else {
      var f := Next(data, max, parse);
      if f.Frame? && f.length < |data| {
        var d := Decode(data[f.length..], max, parse);
        assert d.status == Ok ==> |d.envelopes| > 0;
      }
    }
  }

  /** How a bad frame at the front is reported: by its length field first, by its body next. */
  lemma BadFrame<E>(body: Bytes, more: Bytes, max: nat, parse: Bytes -> Option<E>)
    requires max < 0x1_0000_0000
    ensures var d, n := Decode(EncodeBody(body) + more, max, parse), |body| % 0x1_0000_0000;
            && (n == 0 || n > max ==> d == Decoded(InvalidLength, [], 0))
            && (1 <= n <= max && parse(body[..n]).None? ==> d == Decoded(ParseError, [], 0))
  {
    NextEncoded(body, more, max, parse);
  }

  /** The limit of the programs is one mebibyte of body. */
  lemma OneMebibyte<E>(e: E, body: Bytes, parse: Bytes -> Option<E>)
    requires parse(body) == Some(e)
    ensures Decode(EncodeBody(body), MaxFrameLength, parse) == Decoded(Ok, [e], |body| + 4) <==> 1 <= |body| <= 1048576
  {
    FrameRoundTrip(e, body, MaxFrameLength, parse);
  }

  ghost predicate Transmissible<E>(e: E, max: nat, parse: Bytes -> Option<E>, serialize: E -> Option<Bytes>) {
    serialize(e).Some? && parse(serialize(e).value) == Some(e) && 1 <= |serialize(e).value| <= max
  }

  function EncodeAll<E>(es: seq<E>, serialize: E -> Option<Bytes>): Bytes {
    if es == [] then [] else Encode(es[0], serialize) + EncodeAll(es[1..], serialize)
  }

  /** Frames and then any bytes: the envelopes come back in order, then decoding goes on. */
  lemma {:induction false} StreamThen<E>(es: seq<E>, more: Bytes, max: nat, parse: Bytes -> Option<E>, serialize: E -> Option<Bytes>)
    requires max < 0x1_0000_0000 && forall i :: 0 <= i < |es| ==> Transmissible(es[i], max, parse, serialize)
    ensures Decode(EncodeAll(es, serialize) + more, max, parse)
         == After(es, |EncodeAll(es, serialize)|, Decode(more, max, parse))
  {
    if es == [] {
      assert EncodeAll(es, serialize) + more == more;
    } else {
      assert Transmissible(es[0], max, parse, serialize);
      StreamThen(es[1..], more, max, parse, serialize);
      var first, tail := Encode(es[0], serialize), EncodeAll(es[1..], serialize);
      OneFrame(es[0], serialize(es[0]).value, tail + more, max, parse);
      Associative(first, tail, more);
      AfterBoth(es, |first|, |tail|, Decode(more, max, parse));
    }
  }

  lemma Associative(a: Bytes, b: Bytes, c: Bytes)
    ensures a + b + c == a + (b + c)
  {
  }

  lemma AfterBoth<E>(es: seq<E>, m: nat, n: nat, d: Decoded<E>)
    requires es != []
    ensures After([es[0]], m, After(es[1..], n, d)) == After(es, m + n, d)
  {
    assert [es[0]] + (es[1..] + d.envelopes) == es + d.envelopes;
  }

  lemma OneFrame<E>(e: E, body: Bytes, tail: Bytes, max: nat, parse: Bytes -> Option<E>)
    requires parse(body) == Some(e) && 1 <= |body| <= max < 0x1_0000_0000
    ensures Decode(EncodeBody(body) + tail, max, parse) == After([e], |EncodeBody(body)|, Decode(tail, max, parse))
  {
    NextEncoded(body, tail, max, parse);
    assert body[..|body|] == body;
    DecodeFrame(EncodeBody(body), tail, e, max, parse);
  }

  /** A frame in front is taken off, and decoding goes on behind it. */
  lemma DecodeFrame<E>(frame: Bytes, tail: Bytes, e: E, max: nat, parse: Bytes -> Option<E>)
    requires frame != [] && Next(frame + tail, max, parse) == Frame(e, |frame|)
    ensures Decode(frame + tail, max, parse) == After([e], |frame|, Decode(tail, max, parse))
  {
    assert (frame + tail)[|frame|..] == tail;
  }

  /** Concatenated frames and a proper part of one more frame: exactly those envelopes, and the
      part is kept. */
  lemma StreamRoundTrip<E>(es: seq<E>, next: E, cut: nat, max: nat, parse: Bytes -> Option<E>, serialize: E -> Option<Bytes>)
    requires max < 0x1_0000_0000 && forall i :: 0 <= i < |es| ==> Transmissible(es[i], max, parse, serialize)
    requires Transmissible(next, max, parse, serialize) && cut < |Encode(next, serialize)|
    ensures var data := EncodeAll(es, serialize) + Encode(next, serialize)[..cut];
            && Decode(data, max, parse)
               == Decoded(if cut == 0 then Ok else NeedMoreData, es, |EncodeAll(es, serialize)|)
            && Rest(data, max, parse) == Encode(next, serialize)[..cut]
  {
    var part := Encode(next, serialize)[..cut];
    StreamThen(es, part, max, parse, serialize);
    PartialFrame(serialize(next).value, cut, max, parse);
    assert es + [] == es;
  }

  lemma PartialFrame<E>(body: Bytes, cut: nat, max: nat, parse: Bytes -> Option<E>)
    requires 1 <= |body| <= max < 0x1_0000_0000 && cut < |EncodeBody(body)|
    ensures Decode(EncodeBody(body)[..cut], max, parse) == Decoded(if cut == 0 then Ok else NeedMoreData, [], 0)
  {
    var part := EncodeBody(body)[..cut];
    if cut >= HeaderLength {
      HeaderRoundTrip(|body|);
      assert part[..HeaderLength] == Header(|body|);
      assert Next(part, max, parse) == Stuck(NeedMoreData);
    } else if cut == 0 {
      assert part == [];
    }
  }
}
