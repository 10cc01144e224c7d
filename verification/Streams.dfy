/** The receive loops: bytes arrive in chunks of any size, are appended to a buffer, decoded, and
    the decoded bytes erased. Server, C++ client and web gateway differ in what they do with the
    envelopes of a chunk in which a bad frame shows up. */
module Streams {
  import opened Options
  import opened Framing

  function Concat(chunks: seq<Bytes>): Bytes {
    if chunks == [] then [] else Concat(chunks[..|chunks| - 1]) + chunks[|chunks| - 1]
  }

  /** One receive buffer and the envelopes handed on from it. */
  datatype Session<E> = Session(buffer: Bytes, handled: seq<E>, failed: bool)

  datatype Receiver = Server | Gateway

  /** ChatServer::onMessage and ImClient.handleData: an error hands nothing of this chunk on. The
      server has erased the good frames by then, the gateway has not. */
  function Turn<E>(s: Session<E>, chunk: Bytes, who: Receiver, max: nat, parse: Bytes -> Option<E>): Session<E> {
    var data := s.buffer + chunk;
    var d := Decode(data, max, parse);
    if IsError(d.status) then Session(if who == Server then data[d.consumed..] else data, s.handled, true)
    else Session(data[d.consumed..], s.handled + d.envelopes, s.failed)
  }

  function Receive<E>(chunks: seq<Bytes>, who: Receiver, max: nat, parse: Bytes -> Option<E>): Session<E> {
    if chunks == [] then Session([], [], false)
    else Turn(Receive(chunks[..|chunks| - 1], who, max, parse), chunks[|chunks| - 1], who, max, parse)
  }

  /** s is what the loop should be in after the bytes whole. */
  ghost predicate Faithful<E>(s: Session<E>, whole: Bytes, max: nat, parse: Bytes -> Option<E>) {
    var d := Decode(whole, max, parse);
    && (s.failed <==> IsError(d.status))
    && s.handled <= d.envelopes
    && (!s.failed ==> s.handled == d.envelopes && s.buffer == whole[d.consumed..])
    && (s.failed ==> IsError(Decode(s.buffer, max, parse).status))
  }

  lemma FailedTurn<E>(s: Session<E>, whole: Bytes, chunk: Bytes, who: Receiver, max: nat, parse: Bytes -> Option<E>)
    requires Faithful(s, whole, max, parse) && s.failed
    ensures Faithful(Turn(s, chunk, who, max, parse), whole + chunk, max, parse)
    ensures Turn(s, chunk, who, max, parse).handled == s.handled
  {
    DecodeSplit(whole, chunk, max, parse);
    DecodeSplit(s.buffer, chunk, max, parse);
    RestStuck(s.buffer + chunk, max, parse);
  }

  lemma GoodTurn<E>(s: Session<E>, whole: Bytes, chunk: Bytes, who: Receiver, max: nat, parse: Bytes -> Option<E>)
    requires Faithful(s, whole, max, parse) && !s.failed
    ensures Faithful(Turn(s, chunk, who, max, parse), whole + chunk, max, parse)
  {
    var d := Decode(whole, max, parse);
    DecodeSplit(whole, chunk, max, parse);
    RestStuck(s.buffer + chunk, max, parse);
    SliceTwice(whole, chunk, d.consumed, Decode(s.buffer + chunk, max, parse).consumed);
  }

  lemma SliceTwice(a: Bytes, b: Bytes, m: nat, n: nat)
    requires m <= |a| && m + n <= |a + b|
    ensures (a[m..] + b)[n..] == (a + b)[m + n..]
  {
    assert a[m..] + b == (a + b)[m..];
  }

  lemma {:induction false} ReceiveFaithful<E>(chunks: seq<Bytes>, who: Receiver, max: nat, parse: Bytes -> Option<E>)
    ensures Faithful(Receive(chunks, who, max, parse), Concat(chunks), max, parse)
  {
    if chunks != [] {
      var n := |chunks| - 1;
      ReceiveFaithful(chunks[..n], who, max, parse);
      var s := Receive(chunks[..n], who, max, parse);
      if s.failed {
        FailedTurn(s, Concat(chunks[..n]), chunks[n], who, max, parse);
      } else {
        GoodTurn(s, Concat(chunks[..n]), chunks[n], who, max, parse);
      }
    }
  }

  /** Chunking independence: however a stream without a bad frame is cut up, exactly its envelopes
      are handed on, its unfinished last frame is kept, and that is less than one frame. */
  lemma ChunkingIndependent<E>(chunks: seq<Bytes>, who: Receiver, max: nat, parse: Bytes -> Option<E>)
    requires !IsError(Decode(Concat(chunks), max, parse).status)
    ensures Receive(chunks, who, max, parse)
         == Session(Rest(Concat(chunks), max, parse), Decode(Concat(chunks), max, parse).envelopes, false)
    ensures |Receive(chunks, who, max, parse).buffer| < HeaderLength + max
  {
    ReceiveFaithful(chunks, who, max, parse);
    RestBounded(Concat(chunks), max, parse);
  }

  /** A chunk that exposes a bad frame: none of its envelopes is handed on. The server keeps what
      stands from the bad frame on, the gateway everything it had. */
  lemma BufferAfterError<E>(s: Session<E>, chunk: Bytes, max: nat, parse: Bytes -> Option<E>)
    requires IsError(Decode(s.buffer + chunk, max, parse).status)
    ensures var t := Turn(s, chunk, Server, max, parse);
            && t.failed && t.handled == s.handled
            && Decode(t.buffer, max, parse) == Decoded(Decode(s.buffer + chunk, max, parse).status, [], 0)
            && exists k :: 0 <= k <= |s.buffer + chunk| && t.buffer == (s.buffer + chunk)[k..]
    ensures var t := Turn(s, chunk, Gateway, max, parse);
            t.failed && t.handled == s.handled && t.buffer == s.buffer + chunk
  {
    RestStuck(s.buffer + chunk, max, parse);
  }

  lemma StillFailed<E>(chunks: seq<Bytes>, who: Receiver, max: nat, parse: Bytes -> Option<E>)
    requires chunks != [] && Receive(chunks[..|chunks| - 1], who, max, parse).failed
    ensures Receive(chunks, who, max, parse).failed
    ensures Receive(chunks, who, max, parse).handled == Receive(chunks[..|chunks| - 1], who, max, parse).handled
  {
    var n := |chunks| - 1;
    ReceiveFaithful(chunks[..n], who, max, parse);
    FailedTurn(Receive(chunks[..n], who, max, parse), Concat(chunks[..n]), chunks[n], who, max, parse);
  }

  /** Once a chunk fails, nothing that arrives later is ever handed on from that buffer. */
  lemma {:induction false} FailureSticks<E>(chunks: seq<Bytes>, k: nat, who: Receiver, max: nat, parse: Bytes -> Option<E>)
    requires k <= |chunks| && Receive(chunks[..k], who, max, parse).failed
    ensures Receive(chunks, who, max, parse).failed
    ensures Receive(chunks, who, max, parse).handled == Receive(chunks[..k], who, max, parse).handled
    decreases |chunks|
  {
    var n := |chunks| - 1;
    if k == |chunks| {
      assert chunks[..k] == chunks;
    } else {
      assert chunks[..n][..k] == chunks[..k];
      FailureSticks(chunks[..n], k, who, max, parse);
      StillFailed(chunks, who, max, parse);
    }
  }

  /** With a bad frame, what is handed on is exactly what had arrived completely before the chunk
      that exposed it: some of the valid leading frames, in order. */
  lemma BadStream<E>(chunks: seq<Bytes>, k: nat, who: Receiver, max: nat, parse: Bytes -> Option<E>)
    requires k < |chunks|
    requires !IsError(Decode(Concat(chunks[..k]), max, parse).status)
    requires IsError(Decode(Concat(chunks[..k + 1]), max, parse).status)
    ensures Receive(chunks, who, max, parse).handled == Decode(Concat(chunks[..k]), max, parse).envelopes
    ensures Receive(chunks, who, max, parse).handled <= Decode(Concat(chunks), max, parse).envelopes
  {
    ReceiveFaithful(chunks, who, max, parse);
    ReceiveFaithful(chunks[..k], who, max, parse);
    ReceiveFaithful(chunks[..k + 1], who, max, parse);
    assert chunks[..k + 1][..k] == chunks[..k];
    FailureSticks(chunks, k + 1, who, max, parse);
  }

  /** Frames and a proper part of one more, cut up in any way, come out as they went in. */
  lemma TransmissionIndependent<E>(
      es: seq<E>, next: E, cut: nat, chunks: seq<Bytes>, who: Receiver,
      max: nat, parse: Bytes -> Option<E>, serialize: E -> Option<Bytes>)
    requires max < 0x1_0000_0000 && forall i :: 0 <= i < |es| ==> Transmissible(es[i], max, parse, serialize)
    requires Transmissible(next, max, parse, serialize) && cut < |Encode(next, serialize)|
    requires Concat(chunks) == EncodeAll(es, serialize) + Encode(next, serialize)[..cut]
    ensures Receive(chunks, who, max, parse) == Session(Encode(next, serialize)[..cut], es, false)
  {
    StreamRoundTrip(es, next, cut, max, parse, serialize);
    ChunkingIndependent(chunks, who, max, parse);
  }

  // --------------------------------------------------------------- the C++ client

  /** The first empty read, that is the end of the connection. */
  function ClosedAt(recvs: seq<Bytes>, from: nat): (n: nat)
    requires from <= |recvs|
    ensures from <= n <= |recvs| && forall i :: from <= i < n ==> recvs[i] != []
    ensures n < |recvs| ==> recvs[n] == []
    decreases |recvs| - from
  {
    if from == |recvs| || recvs[from] == [] then from else ClosedAt(recvs, from + 1)
  }

  /** What arrived after a bad frame does not change what is decoded. */
  lemma {:induction false} ErrorStays<E>(chunks: seq<Bytes>, i: nat, j: nat, max: nat, parse: Bytes -> Option<E>)
    requires i <= j <= |chunks| && IsError(Decode(Concat(chunks[..i]), max, parse).status)
    ensures Decode(Concat(chunks[..j]), max, parse) == Decode(Concat(chunks[..i]), max, parse)
  {
    if i < j {
      ErrorStays(chunks, i, j - 1, max, parse);
      assert chunks[..j][..j - 1] == chunks[..j - 1];
      DecodeSplit(Concat(chunks[..j - 1]), chunks[j - 1], max, parse);
    }
  }

  /** Everything decodable in the bytes whole has been handled. */
  ghost predicate Complete<E>(s: Session<E>, whole: Bytes, max: nat, parse: Bytes -> Option<E>) {
    var d := Decode(whole, max, parse);
    s.handled == d.envelopes && (s.failed <==> IsError(d.status)) && (!s.failed ==> s.buffer == whole[d.consumed..])
  }

  function ClientTurn<E>(s: Session<E>, chunk: Bytes, max: nat, parse: Bytes -> Option<E>): Session<E> {
    var d := Decode(s.buffer + chunk, max, parse);
    Session((s.buffer + chunk)[d.consumed..], s.handled + d.envelopes, IsError(d.status))
  }

  lemma ClientComplete<E>(s: Session<E>, recvs: seq<Bytes>, i: nat, end: nat, max: nat, parse: Bytes -> Option<E>)
    requires i < end <= |recvs| && Complete(s, Concat(recvs[..i]), max, parse) && !s.failed
    ensures var t := ClientTurn(s, recvs[i], max, parse);
            && Complete(t, Concat(recvs[..i + 1]), max, parse)
            && (t.failed ==> Complete(t, Concat(recvs[..end]), max, parse))
  {
    assert recvs[..i + 1][..i] == recvs[..i];
    var whole := Concat(recvs[..i]);
    DecodeSplit(whole, recvs[i], max, parse);
    SliceTwice(whole, recvs[i], Decode(whole, max, parse).consumed, Decode(s.buffer + recvs[i], max, parse).consumed);
    if ClientTurn(s, recvs[i], max, parse).failed { ErrorStays(recvs, i + 1, end, max, parse); }
  }

  lemma NothingReceived<E>(recvs: seq<Bytes>, max: nat, parse: Bytes -> Option<E>)
    ensures Complete(Session([], [], false), Concat(recvs[..0]), max, parse)
  {
    assert recvs[..0] == [];
  }

  /** One turn of the loop: append what was read, decode, handle the envelopes, keep the rest. */
  method HandleChunk<E>(s: Session<E>, chunk: Bytes, max: nat, parse: Bytes -> Option<E>) returns (t: Session<E>)
    ensures t == ClientTurn(s, chunk, max, parse)
  {
    var data := s.buffer + chunk;
    var d := DecodeAll(data, max, parse);
    t := Session(data[d.consumed..], s.handled + d.envelopes, IsError(d.status));
  }

  /** Client::receiverLoop: the envelopes in front of a bad frame are handled even in the chunk
      that exposes it, so the result depends on the bytes alone, with or without a bad frame. */
  method ReceiverLoop<E>(recvs: seq<Bytes>, max: nat, parse: Bytes -> Option<E>) returns (s: Session<E>)
    ensures Complete(s, Concat(recvs[..ClosedAt(recvs, 0)]), max, parse)
  {
    s := Session([], [], false);
    NothingReceived(recvs, max, parse);
    var i := 0;
    ghost var end := ClosedAt(recvs, 0);
    while i < |recvs| && recvs[i] != []
      invariant i <= end && !s.failed
      invariant Complete(s, Concat(recvs[..i]), max, parse)
    {
      ClientComplete(s, recvs, i, end, max, parse);
      s := HandleChunk(s, recvs[i], max, parse);
      if s.failed { return; }
      i := i + 1;
    }
  }

  // --------------------------------------------------------------- the web gateway

  class ImClient<E> {
    const parse: Bytes -> Option<E>
    var recvBuffer: Bytes
    var handled: seq<E>
    var closed: bool

    constructor (parse: Bytes -> Option<E>)
      ensures this.parse == parse && Session(recvBuffer, handled, closed) == Receive([], Gateway, MaxFrameLength, parse)
    {
      this.parse, recvBuffer, handled, closed := parse, [], [], false;
    }

    method HandleData(chunk: Bytes)
      modifies this
      ensures Session(recvBuffer, handled, closed)
           == Turn(old(Session(recvBuffer, handled, closed)), chunk, Gateway, MaxFrameLength, parse)
    {
      recvBuffer := recvBuffer + chunk;
      var decoded := DecodeOrThrow(recvBuffer, MaxFrameLength, parse);
      if decoded.None? {
        closed := true;
        return;
      }
      recvBuffer := decoded.value.1;
      handled := handled + decoded.value.0;
    }
  }
}
