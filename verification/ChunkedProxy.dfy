/** The presentation proxy's chunked transfer coding, and a reader of section 7.1 of RFC 9112 that
    gives the body back. */
module ChunkedProxy {
  import opened Prelude
  import opened Framing

  const CR: Byte := 13
  const LF: Byte := 10
  const CRLF: seq<Byte> := [CR, LF]

  // ---------- the writer ----------

  /** A hexadecimal digit in lower case. */
  function Digit(d: nat): Byte
    requires d < 16
  {
    if d < 10 then 48 + d else 87 + d
  }

  function Hex(n: nat): (s: seq<Byte>)
    ensures s != []
  {
    if n < 16 then [Digit(n)] else Hex(n / 16) + [Digit(n % 16)]
  }

  function Chunk(data: seq<Byte>): seq<Byte> {
    Hex(|data|) + CRLF + data + CRLF
  }

  /** What is written for the pieces read up to the first empty one, which ends the upstream. */
  function Chunks(pieces: seq<seq<Byte>>): seq<Byte> {
    if pieces == [] || pieces[0] == [] then [] else Chunk(pieces[0]) + Chunks(pieces[1..])
  }

  const LAST_CHUNK: seq<Byte> := [48] + CRLF + CRLF

  /** The pieces read before the upstream ends. */
  function UntilEmpty(pieces: seq<seq<Byte>>): seq<seq<Byte>> {
    if pieces == [] || pieces[0] == [] then [] else [pieces[0]] + UntilEmpty(pieces[1..])
  }

  lemma OneMoreChunk(before: seq<Byte>, pieces: seq<seq<Byte>>, i: nat)
    requires i < |pieces| && pieces[i] != []
    ensures before + Chunks(pieces[i..])
         == before + (Hex(|pieces[i]|) + CRLF) + pieces[i] + CRLF + Chunks(pieces[i + 1..])
  {
    hide Hex;
    assert pieces[i..][1..] == pieces[i + 1..];
  }

  /** The proxy's loop; reading past the given pieces finds the end. */
  method WriteBody(stream: Socket, pieces: seq<seq<Byte>>)
    modifies stream`sent
    ensures stream.sent == old(stream.sent) + Chunks(pieces) + LAST_CHUNK
  {
    hide Hex, Chunk;
    var i := 0;
    assert pieces[0..] == pieces;
    while i < |pieces| && pieces[i] != []
      invariant i <= |pieces| && old(stream.sent) + Chunks(pieces) == stream.sent + Chunks(pieces[i..])
    {
      ghost var before := stream.sent;
      stream.SendAll(Hex(|pieces[i]|) + CRLF);
      stream.SendAll(pieces[i]);
      stream.SendAll(CRLF);
      OneMoreChunk(before, pieces, i);
      i := i + 1;
    }
    assert Chunks(pieces[i..]) == [];
    stream.SendAll([48] + CRLF + CRLF);
  }

  // ---------- the reader ----------

  function DigitValue(b: Byte): Option<nat> {
    if 48 <= b < 58 then Some(b - 48)
    else if 65 <= b < 71 then Some(b - 55)
    else if 97 <= b < 103 then Some(b - 87)
    else None
  }

  /** As many hexadecimal digits as there are, after some already read. */
  function Size(s: seq<Byte>, high: nat): (nat, seq<Byte>) {
    if s == [] || DigitValue(s[0]).None? then (high, s) else Size(s[1..], high * 16 + DigitValue(s[0]).value)
  }

  lemma {:induction false} SizeShortens(s: seq<Byte>, high: nat)
    ensures |Size(s, high).1| <= |s|
  {
    if s != [] && DigitValue(s[0]).Some? {
      SizeShortens(s[1..], high * 16 + DigitValue(s[0]).value);
    }
  }

  /** What follows the next line end. */
  function SkipLine(s: seq<Byte>): (r: Option<seq<Byte>>)
    ensures r.Some? ==> |r.value| < |s|
  {
    if |s| < 2 then None else if s[..2] == CRLF then Some(s[2..]) else SkipLine(s[1..])
  }

  /** A size line: digits, then perhaps an extension, which is ignored. */
  function SizeLine(s: seq<Byte>): (r: Option<(nat, seq<Byte>)>)
    ensures r.Some? ==> |r.value.1| < |s|
  {
    if s == [] || DigitValue(s[0]).None? then None
    else
      var (n, rest) := Size(s, 0);
      SizeShortens(s, 0);
      if |rest| < 2 then None
      else if rest[..2] == CRLF then Some((n, rest[2..]))
      else if rest[0] == 59 || rest[0] == 32 || rest[0] == 9 then
        match SkipLine(rest)
        case None => None
        case Some(after) => Some((n, after))
      else None
  }

  /** Trailer fields, ignored, up to the empty line. */
  function Trailers(s: seq<Byte>): Option<seq<Byte>>
    decreases |s|
  {
    if |s| >= 2 && s[..2] == CRLF then Some(s[2..])
    else
      match SkipLine(s)
      case None => None
      case Some(rest) => Trailers(rest)
  }

  /** The body of a chunked message and what follows the message. */
  function ReadBody(s: seq<Byte>): Option<(seq<Byte>, seq<Byte>)>
    decreases |s|
  {
    match SizeLine(s)
    case None => None
    case Some((n, rest)) =>
      if n == 0 then
        match Trailers(rest)
        case None => None
        case Some(after) => Some(([], after))
      else if |rest| < n + 2 || rest[n..n + 2] != CRLF then None
      else
        match ReadBody(rest[n + 2..])
        case None => None
        case Some((body, after)) => Some((rest[..n] + body, after))
  }

  // ---------- the round trip ----------

  lemma DigitRoundTrip(d: nat)
    requires d < 16
    ensures DigitValue(Digit(d)) == Some(d)
  {
  }

  lemma {:induction false} HexRoundTrip(n: nat, rest: seq<Byte>)
    ensures Size(Hex(n) + rest, 0) == Size(rest, n)
    ensures DigitValue(Hex(n)[0]).Some?
  {
    if n < 16 {
      DigitRoundTrip(n);
      assert (Hex(n) + rest)[1..] == rest;
    } else {
      var last := [Digit(n % 16)];
      HexRoundTrip(n / 16, last + rest);
      DigitRoundTrip(n % 16);
      assert Hex(n) + rest == Hex(n / 16) + (last + rest);
      assert (last + rest)[1..] == rest;
    }
  }

  lemma SizeLineOf(n: nat, rest: seq<Byte>)
    ensures SizeLine(Hex(n) + CRLF + rest) == Some((n, rest))
  {
    HexRoundTrip(n, CRLF + rest);
    var s := Hex(n) + (CRLF + rest);
    assert Hex(n) + CRLF + rest == s;
    assert s[0] == Hex(n)[0];
    assert (CRLF + rest)[..2] == CRLF && (CRLF + rest)[2..] == rest;
  }

  lemma ChunkRead(data: seq<Byte>, rest: seq<Byte>)
    requires data != []
    ensures ReadBody(Chunk(data) + rest)
            == match ReadBody(rest) case None => None case Some((body, after)) => Some((data + body, after))
  {
    hide Hex, SizeLine;
    var n := |data|;
    var tail := data + CRLF + rest;
    SizeLineOf(n, tail);
    assert Chunk(data) + rest == Hex(n) + CRLF + tail;
    assert tail[n..n + 2] == CRLF && tail[..n] == data && tail[n + 2..] == rest;
  }

  /** Whatever pieces the upstream gives, a reader of the coding gets exactly the bytes before its end,
      and what follows the message is left alone. */
  lemma {:induction false} BodyRoundTrip(pieces: seq<seq<Byte>>, rest: seq<Byte>)
    ensures ReadBody(Chunks(pieces) + LAST_CHUNK + rest) == Some((Concat(UntilEmpty(pieces)), rest))
  {
    hide ReadBody, SizeLine, Chunk;
    if pieces == [] || pieces[0] == [] {
      LastChunkRead(rest);
      assert Chunks(pieces) + LAST_CHUNK + rest == LAST_CHUNK + rest;
    } else {
      var more := Chunks(pieces[1..]) + LAST_CHUNK + rest;
      BodyRoundTrip(pieces[1..], rest);
      ChunkRead(pieces[0], more);
      assert Chunks(pieces) + LAST_CHUNK + rest == Chunk(pieces[0]) + more;
      assert ([pieces[0]] + UntilEmpty(pieces[1..]))[1..] == UntilEmpty(pieces[1..]);
    }
  }

  lemma LastChunkRead(rest: seq<Byte>)
    ensures ReadBody(LAST_CHUNK + rest) == Some(([], rest))
  {
    hide SizeLine;
    assert Hex(0) == [48];
    SizeLineOf(0, CRLF + rest);
    assert LAST_CHUNK + rest == Hex(0) + CRLF + (CRLF + rest);
    assert (CRLF + rest)[..2] == CRLF && (CRLF + rest)[2..] == rest;
  }

  /** One response through the proxy to a reader of the coding: the body is exactly the bytes before the
      upstream's end, and nothing is left over. */
  method ProxyAndRead(pieces: seq<seq<Byte>>) returns (r: Option<(seq<Byte>, seq<Byte>)>)
    ensures r == Some((Concat(UntilEmpty(pieces)), []))
  {
    hide ReadBody;
    var stream := new Socket([], n => n);
    WriteBody(stream, pieces);
    BodyRoundTrip(pieces, []);
    assert stream.sent == Chunks(pieces) + LAST_CHUNK + [];
    r := ReadBody(stream.sent);
  }
}
