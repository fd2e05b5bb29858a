/** The length-prefixed frames between the two bridges, over a socket that may deliver its bytes in
    pieces of any size. */
module Framing {
  import opened Prelude

  const MAX_RESPONSE_BYTES: nat := 33554432
  const MAX_FRAME_HEADER_BYTES: nat := 4096
  const MAX_CHUNK_BYTES: nat := 65536
  const WORD: nat := 0x1_0000_0000

  type Byte = b: int | 0 <= b < 256 witness 0

  // ---------- 32-bit lengths ----------

  /** A length as four bytes, most significant first. */
  function Pack(n: nat): (s: seq<Byte>)
    requires n < WORD
    ensures |s| == 4
  {
    [n / 16777216, (n / 65536) % 256, (n / 256) % 256, n % 256]
  }

  function Unpack(s: seq<Byte>): (n: nat)
    requires |s| == 4
    ensures n < WORD
  {
    var a: int, b: int, c: int, d: int := s[0], s[1], s[2], s[3];
    ((a * 256 + b) * 256 + c) * 256 + d
  }

  lemma UnpackInvertsPack(n: nat)
    requires n < WORD
    ensures Unpack(Pack(n)) == n
  {
    var q1, q2, q3 := n / 256, n / 65536, n / 16777216;
    assert n == q1 * 256 + n % 256;
    assert q1 == q2 * 256 + q1 % 256;
    assert q2 == q3 * 256 + q2 % 256;
  }

  lemma PackInvertsUnpack(s: seq<Byte>)
    requires |s| == 4
    ensures Pack(Unpack(s)) == s
  {
    var a: int, b: int, c: int, d: int := s[0], s[1], s[2], s[3];
    var high := (a * 256 + b) * 256 + c;
    var n := high * 256 + d;
    assert n / 256 == high && n % 256 == d;
    assert n / 65536 == a * 256 + b && (n / 256) % 256 == c;
    assert n / 16777216 == a && (n / 65536) % 256 == b;
  }

  // ---------- the socket ----------

  /** One end of a stream: the bytes still to be received, then its end, and the bytes sent.  How many
      bytes one call delivers is up to `pieces`. */
  class Socket {
    const pieces: nat -> nat
    var calls: nat
    var incoming: seq<Byte>
    var sent: seq<Byte>

    constructor (incoming: seq<Byte>, pieces: nat -> nat)
      ensures this.incoming == incoming && sent == [] && this.pieces == pieces
    {
      this.pieces := pieces;
      calls := 0;
      this.incoming := incoming;
      sent := [];
    }

    /** At least one byte and at most n, as long as there are any. */
    method Receive(n: nat) returns (chunk: seq<Byte>)
      requires n > 0
      modifies this`incoming, this`calls
      ensures |chunk| <= n && (chunk == [] <==> old(incoming) == [])
      ensures old(incoming) == chunk + incoming
    {
      var k := pieces(calls) + 1;
      var most := if n < |incoming| then n else |incoming|;
      var size := if k < most then k else most;
      chunk := incoming[..size];
      incoming := incoming[size..];
      calls := calls + 1;
    }

    method SendAll(data: seq<Byte>)
      modifies this`sent
      ensures sent == old(sent) + data
    {
      sent := sent + data;
    }
  }

  datatype FrameError = Truncated | InvalidHeaderSize | HeaderTooLarge | ChunkTooLarge | ResponseTooLarge

  /** Exactly the next bytes, in whatever pieces they come; a stream that ends before is an error. */
  method ReadExact(stream: Socket, length: nat) returns (r: Result<seq<Byte>, FrameError>)
    modifies stream`incoming, stream`calls
    ensures if length <= |old(stream.incoming)|
            then r == Ok(old(stream.incoming)[..length]) && stream.incoming == old(stream.incoming)[length..]
            else r == Err(Truncated) && stream.incoming == []
  {
    var chunks: seq<Byte> := [];
    while |chunks| < length
      invariant |chunks| <= length && old(stream.incoming) == chunks + stream.incoming
    {
      var chunk := stream.Receive(length - |chunks|);
      if chunk == [] {
        return Err(Truncated);
      }
      chunks := chunks + chunk;
    }
    return Ok(chunks);
  }

  // ---------- the header frame ----------

  method SendFrameHeader(connection: Socket, encoded: seq<Byte>) returns (r: Result<(), FrameError>)
    modifies connection`sent
    ensures if |encoded| > MAX_FRAME_HEADER_BYTES then r == Err(HeaderTooLarge) && connection.sent == old(connection.sent)
            else r == Ok(()) && connection.sent == old(connection.sent) + Pack(|encoded|) + encoded
  {
    if |encoded| > MAX_FRAME_HEADER_BYTES {
      return Err(HeaderTooLarge);
    }
    connection.SendAll(Pack(|encoded|) + encoded);
    return Ok(());
  }

  /** What a header frame at the start of a stream says. */
  function Header(s: seq<Byte>): Result<seq<Byte>, FrameError> {
    if |s| < 4 then Err(Truncated)
    else
      var length := Unpack(s[..4]);
      if !(1 <= length <= MAX_FRAME_HEADER_BYTES) then Err(InvalidHeaderSize)
      else if |s| < 4 + length then Err(Truncated)
      else Ok(s[4..4 + length])
  }

  /** Four bytes give the length, most significant first; it has to be 1 to 4096, and so many bytes have to follow. */
  lemma HeaderMeans(s: seq<Byte>)
    ensures Header(s)
         == if |s| < 4 then Err(Truncated)
            else
              var length: int := 16777216 * (s[0] as int) + 65536 * (s[1] as int) + 256 * (s[2] as int) + (s[3] as int);
              if length == 0 || length > 4096 then Err(InvalidHeaderSize)
              else if |s| - 4 < length then Err(Truncated)
              else Ok(s[4..][..length])
  {
    if |s| >= 4 && |s| - 4 >= Unpack(s[..4]) {
      assert s[4..][..Unpack(s[..4])] == s[4..4 + Unpack(s[..4])];
    }
  }

  method RecvFrameHeader(connection: Socket) returns (r: Result<seq<Byte>, FrameError>)
    modifies connection`incoming, connection`calls
    ensures r == Header(old(connection.incoming))
    ensures r.Ok? ==> connection.incoming == old(connection.incoming)[4 + |r.value|..]
  {
    var prefix := ReadExact(connection, 4);
    if prefix.Err? {
      return Err(prefix.error);
    }
    var length := Unpack(prefix.value);
    if !(1 <= length <= MAX_FRAME_HEADER_BYTES) {
      return Err(InvalidHeaderSize);
    }
    ghost var s := old(connection.incoming);
    assert length <= |s[4..]| ==> s[4..][..length] == s[4..4 + length] && s[4..][length..] == s[4 + length..];
    r := ReadExact(connection, length);
  }

  /** A header that can be sent is received as it was exactly when it is not empty. */
  lemma HeaderRoundTrip(encoded: seq<Byte>, rest: seq<Byte>)
    requires |encoded| <= MAX_FRAME_HEADER_BYTES
    ensures Header(Pack(|encoded|) + encoded + rest) == Ok(encoded) <==> encoded != []
  {
    UnpackInvertsPack(|encoded|);
    var s := Pack(|encoded|) + encoded + rest;
    assert s[..4] == Pack(|encoded|);
    if encoded != [] {
      assert s[4..4 + |encoded|] == encoded;
    }
  }

  // ---------- the chunk stream ----------

  function Frame(chunk: seq<Byte>): seq<Byte>
    requires |chunk| < WORD
  {
    Pack(|chunk|) + chunk
  }

  predicate Small(chunks: seq<seq<Byte>>) {
    forall k :: 0 <= k < |chunks| ==> |chunks[k]| < WORD
  }

  function Frames(chunks: seq<seq<Byte>>): seq<Byte>
    requires Small(chunks)
  {
    if chunks == [] then [] else Frame(chunks[0]) + Frames(chunks[1..])
  }

  function Concat(chunks: seq<seq<Byte>>): seq<Byte> {
    if chunks == [] then [] else chunks[0] + Concat(chunks[1..])
  }

  method SendChunk(connection: Socket, chunk: seq<Byte>)
    requires |chunk| < WORD
    modifies connection`sent
    ensures connection.sent == old(connection.sent) + Frame(chunk)
  {
    connection.SendAll(Pack(|chunk|) + chunk);
  }

  lemma {:induction false} FramesAppend(chunks: seq<seq<Byte>>, chunk: seq<Byte>)
    requires Small(chunks) && |chunk| < WORD
    ensures Small(chunks + [chunk])
    ensures Frames(chunks + [chunk]) == Frames(chunks) + Frame(chunk)
    ensures Concat(chunks + [chunk]) == Concat(chunks) + chunk
  {
    hide Frame;
    if chunks == [] {
      assert chunks + [chunk] == [chunk];
      assert [chunk][1..] == [];
    } else {
      FramesAppend(chunks[1..], chunk);
      assert (chunks + [chunk])[1..] == chunks[1..] + [chunk];
    }
  }

  /** The relay's loop over the upstream's pieces: all of them and the terminator, or those before the
      first that exceeds the limit. */
  method Forward(connection: Socket, chunks: seq<seq<Byte>>) returns (r: Result<(), FrameError>)
    requires forall k :: 0 <= k < |chunks| ==> |chunks[k]| <= MAX_CHUNK_BYTES
    modifies connection`sent
    ensures r.Ok? <==> |Concat(chunks)| <= MAX_RESPONSE_BYTES
    ensures Small(chunks)
    ensures r.Ok? ==> connection.sent == old(connection.sent) + Frames(chunks) + Frame([])
    ensures r.Err? ==> r.error == ResponseTooLarge && exists k ::
              && 0 <= k < |chunks| && |Concat(chunks[..k])| <= MAX_RESPONSE_BYTES < |Concat(chunks[..k + 1])|
              && connection.sent == old(connection.sent) + Frames(chunks[..k])
  {
    var total := 0;
    var i := 0;
    while i < |chunks|
      invariant i <= |chunks| && total == |Concat(chunks[..i])| <= MAX_RESPONSE_BYTES
      invariant connection.sent == old(connection.sent) + Frames(chunks[..i])
    {
      FramesAppend(chunks[..i], chunks[i]);
      assert chunks[..i + 1] == chunks[..i] + [chunks[i]];
      total := total + |chunks[i]|;
      if total > MAX_RESPONSE_BYTES {
        ConcatGrows(chunks, i + 1);
        return Err(ResponseTooLarge);
      }
      SendChunk(connection, chunks[i]);
      i := i + 1;
    }
    assert chunks[..i] == chunks;
    SendChunk(connection, []);
    return Ok(());
  }

  lemma {:induction false} ConcatGrows(chunks: seq<seq<Byte>>, k: nat)
    requires k <= |chunks|
    ensures |Concat(chunks[..k])| <= |Concat(chunks)|
    decreases k
  {
    if k > 0 {
      ConcatGrows(chunks[1..], k - 1);
      assert chunks[..k][1..] == chunks[1..][..k - 1];
    }
  }

  // ---------- receiving the chunk stream ----------

  datatype Outcome = Complete | Failed(error: FrameError)

  /** What the adapter has written when it stops, why it stops, and what it has not read. */
  datatype Decoded = Decoded(body: seq<Byte>, outcome: Outcome, rest: seq<Byte>)

  function Decode(s: seq<Byte>, total: nat): Decoded
    decreases |s|
  {
    if |s| < 4 then Decoded([], Failed(Truncated), [])
    else
      var length := Unpack(s[..4]);
      if length == 0 then Decoded([], Complete, s[4..])
      else if length > MAX_CHUNK_BYTES then Decoded([], Failed(ChunkTooLarge), s[4..])
      else if total + length > MAX_RESPONSE_BYTES then Decoded([], Failed(ResponseTooLarge), s[4..])
      else if |s| < 4 + length then Decoded([], Failed(Truncated), [])
      else
        var d := Decode(s[4 + length..], total + length);
        d.(body := s[4..4 + length] + d.body)
  }

  lemma DecodeUnfolds(s: seq<Byte>, total: nat)
    ensures |s| < 4 ==> Decode(s, total) == Decoded([], Failed(Truncated), [])
    ensures |s| >= 4 ==>
              var length := Unpack(s[..4]);
              Decode(s, total) ==
                if length == 0 then Decoded([], Complete, s[4..])
                else if length > MAX_CHUNK_BYTES then Decoded([], Failed(ChunkTooLarge), s[4..])
                else if total + length > MAX_RESPONSE_BYTES then Decoded([], Failed(ResponseTooLarge), s[4..])
                else if |s[4..]| < length then Decoded([], Failed(Truncated), [])
                else After(s[4..][..length], Decode(s[4..][length..], total + length))
  {
    if |s| >= 4 {
      var length := Unpack(s[..4]);
      if length <= |s[4..]| {
        assert s[4..][..length] == s[4..4 + length] && s[4..][length..] == s[4 + length..];
      }
    }
  }

  /** A decoding that comes after some bytes already written. */
  function After(written: seq<Byte>, d: Decoded): Decoded {
    d.(body := written + d.body)
  }

  lemma AfterBoth(a: seq<Byte>, b: seq<Byte>, d: Decoded)
    ensures After(a, After(b, d)) == After(a + b, d) && After([], d) == d
  {
    assert a + (b + d.body) == (a + b) + d.body;
  }

  /** The adapter's loop. */
  method Relay(relay: Socket) returns (written: seq<Byte>, outcome: Outcome)
    modifies relay`incoming, relay`calls
    ensures Decoded(written, outcome, relay.incoming) == Decode(old(relay.incoming), 0)
  {
    hide Decode;
    written := [];
    var total: nat := 0;
    AfterBoth([], [], Decode(relay.incoming, 0));
    while true
      invariant Decode(old(relay.incoming), 0) == After(written, Decode(relay.incoming, total))
      decreases |relay.incoming|
    {
      DecodeUnfolds(relay.incoming, total);
      var prefix := ReadExact(relay, 4);
      if prefix.Err? {
        return written, Failed(prefix.error);
      }
      var length := Unpack(prefix.value);
      if length == 0 {
        return written, Complete;
      }
      if length > MAX_CHUNK_BYTES {
        return written, Failed(ChunkTooLarge);
      }
      total := total + length;
      if total > MAX_RESPONSE_BYTES {
        return written, Failed(ResponseTooLarge);
      }
      var data := ReadExact(relay, length);
      if data.Err? {
        return written, Failed(data.error);
      }
      AfterBoth(written, data.value, Decode(relay.incoming, total));
      written := written + data.value;
    }
  }

  // ---------- the theorems ----------

  /** The chunk lists that the adapter takes whole. */
  predicate Deliverable(chunks: seq<seq<Byte>>, total: nat) {
    && (forall k :: 0 <= k < |chunks| ==> 1 <= |chunks[k]| <= MAX_CHUNK_BYTES)
    && total + |Concat(chunks)| <= MAX_RESPONSE_BYTES
  }

  /** Decoding inverts encoding exactly for the lists of non-empty chunks of at most 64 KiB and of
      32 MiB in all; whatever follows the terminator stays unread. */
  lemma {:induction false} RoundTripIff(chunks: seq<seq<Byte>>, total: nat, rest: seq<Byte>)
    requires Small(chunks) && total <= MAX_RESPONSE_BYTES
    ensures Decode(Frames(chunks) + Frame([]) + rest, total) == Decoded(Concat(chunks), Complete, rest)
            <==> Deliverable(chunks, total)
    decreases |chunks|
  {
    hide Decode, Deliverable;
    NothingToDeliver(total);
    if chunks == [] {
      DecodeFrame([], rest, total);
      assert Frames([]) + Frame([]) + rest == Frame([]) + rest;
    } else {
      var length, more := |chunks[0]|, Frames(chunks[1..]) + Frame([]) + rest;
      assert Frames(chunks) + Frame([]) + rest == Frame(chunks[0]) + more;
      DecodeFrame(chunks[0], more, total);
      DeliverableRest(chunks, total);
      if 1 <= length <= MAX_CHUNK_BYTES && total + length <= MAX_RESPONSE_BYTES {
        RoundTripIff(chunks[1..], total + length, rest);
        SamePrefix(chunks[0], Decode(more, total + length).body, Concat(chunks[1..]));
      } else if length == 0 {
        assert |more| > |rest|;
      }
    }
  }

  lemma NothingToDeliver(total: nat)
    requires total <= MAX_RESPONSE_BYTES
    ensures Deliverable([], total)
  {
  }

  lemma DecodeFrame(chunk: seq<Byte>, more: seq<Byte>, total: nat)
    requires |chunk| < WORD
    ensures var s := Frame(chunk) + more;
            Decode(s, total) ==
              if chunk == [] then Decoded([], Complete, more)
              else if |chunk| > MAX_CHUNK_BYTES then Decoded([], Failed(ChunkTooLarge), s[4..])
              else if total + |chunk| > MAX_RESPONSE_BYTES then Decoded([], Failed(ResponseTooLarge), s[4..])
              else After(chunk, Decode(more, total + |chunk|))
  {
    hide Decode;
    var s := Frame(chunk) + more;
    UnpackInvertsPack(|chunk|);
    assert s[..4] == Pack(|chunk|) && s[4..] == chunk + more;
    assert s[4..][..|chunk|] == chunk && s[4..][|chunk|..] == more;
    DecodeUnfolds(s, total);
  }

  lemma SamePrefix(p: seq<Byte>, a: seq<Byte>, b: seq<Byte>)
    ensures p + a == p + b <==> a == b
  {
    assert (p + a)[|p|..] == a && (p + b)[|p|..] == b;
  }

  lemma DeliverableRest(chunks: seq<seq<Byte>>, total: nat)
    requires chunks != []
    ensures Deliverable(chunks, total) <==>
              1 <= |chunks[0]| <= MAX_CHUNK_BYTES && total + |chunks[0]| <= MAX_RESPONSE_BYTES
              && Deliverable(chunks[1..], total + |chunks[0]|)
  {
    assert chunks == [chunks[0]] + chunks[1..];
  }

  lemma FramesGrow(chunk: seq<Byte>, more: seq<seq<Byte>>, rest: seq<Byte>)
    requires |chunk| <= MAX_CHUNK_BYTES && Small(more)
    ensures Small([chunk] + more) && Concat([chunk] + more) == chunk + Concat(more)
    ensures Frames([chunk] + more) + Frame([]) + rest == Frame(chunk) + (Frames(more) + Frame([]) + rest)
  {
    hide Frame;
    assert ([chunk] + more)[1..] == more;
  }

  lemma NoFrames(s: seq<Byte>)
    requires |s| >= 4 && Pack(0) == s[..4]
    ensures Small([]) && Concat([]) == [] && s == Frames([]) + Frame([]) + s[4..]
  {
  }

  lemma FrameSplits(s: seq<Byte>, length: nat)
    requires length <= MAX_CHUNK_BYTES && |s| >= 4 + length && Pack(length) == s[..4]
    ensures s == Frame(s[4..][..length]) + s[4..][length..]
  {
    hide Pack;
  }

  /** A stream that is taken to be complete is the encoding of such a list, and of nothing else. */
  lemma {:induction false} CompleteMeansEncoded(s: seq<Byte>, total: nat) returns (chunks: seq<seq<Byte>>)
    requires Decode(s, total).outcome.Complete? && total <= MAX_RESPONSE_BYTES
    ensures Deliverable(chunks, total) && Small(chunks)
    ensures var d := Decode(s, total); d.body == Concat(chunks) && s == Frames(chunks) + Frame([]) + d.rest
    decreases |s|
  {
    hide Decode, Deliverable, Frames, Small, Concat;
    DecodeUnfolds(s, total);
    var length := Unpack(s[..4]);
    PackInvertsUnpack(s[..4]);
    NothingToDeliver(total);
    if length == 0 {
      chunks := [];
      NoFrames(s);
    } else {
      var chunk, tail := s[4..][..length], s[4..][length..];
      var more := CompleteMeansEncoded(tail, total + length);
      chunks := [chunk] + more;
      assert chunks[1..] == more;
      DeliverableRest(chunks, total);
      FrameSplits(s, length);
      FramesGrow(chunk, more, Decode(s, total).rest);
    }
  }

  lemma CompleteIsBounded(s: seq<Byte>)
    ensures Decode(s, 0).outcome.Complete? ==> |Decode(s, 0).body| <= MAX_RESPONSE_BYTES
  {
    if Decode(s, 0).outcome.Complete? {
      var chunks := CompleteMeansEncoded(s, 0);
    }
  }

  lemma StreamArrives(chunks: seq<seq<Byte>>, stream: seq<Byte>, whole: bool)
    requires Small(chunks) && (whole <==> |Concat(chunks)| <= MAX_RESPONSE_BYTES)
    requires whole ==> stream == Frames(chunks) + Frame([])
    ensures Decode(stream, 0) == Decoded(Concat(chunks), Complete, []) <==> Deliverable(chunks, 0)
  {
    hide Decode;
    if whole {
      assert stream == Frames(chunks) + Frame([]) + [];
      RoundTripIff(chunks, 0, []);
    } else {
      CompleteIsBounded(stream);
    }
  }

  /** One response from end to end: the relay sends the header and forwards the upstream's pieces, and
      the adapter at the other end of the socket receives them, however they are fragmented.  Header and
      body arrive whole, with nothing left over, exactly for a header of 1 to 4096 bytes and non-empty
      pieces of at most 64 KiB and 32 MiB in all. */
  method Exchange(header: seq<Byte>, chunks: seq<seq<Byte>>, pieces: nat -> nat)
    returns (received: Option<seq<Byte>>, written: seq<Byte>, complete: bool, unread: seq<Byte>)
    requires forall k :: 0 <= k < |chunks| ==> |chunks[k]| <= MAX_CHUNK_BYTES
    ensures (received == Some(header) && complete && written == Concat(chunks) && unread == [])
            <==> 1 <= |header| <= MAX_FRAME_HEADER_BYTES && Deliverable(chunks, 0)
  {
    hide Decode, Deliverable, Frames, Frame, Concat, Pack;
    var host := new Socket([], pieces);
    var sent := SendFrameHeader(host, header);
    if sent.Err? {
      return None, [], false, [];
    }
    ghost var frame := host.sent;
    var forwarded := Forward(host, chunks);
    ghost var stream := host.sent[|frame|..];
    assert host.sent == Pack(|header|) + header + stream;
    HeaderRoundTrip(header, stream);
    var adapter := new Socket(host.sent, pieces);
    var head := RecvFrameHeader(adapter);
    if head.Err? {
      return None, [], false, [];
    }
    ghost var left := adapter.incoming;
    var outcome;
    written, outcome := Relay(adapter);
    if head.value == header {
      assert left == stream;
      StreamArrives(chunks, stream, forwarded.Ok?);
    }
    return Some(head.value), written, outcome.Complete?, adapter.incoming;
  }
}
