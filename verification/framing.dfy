/** Newline-delimited framing: one envelope a line, written by an encoder, read back through a
    buffered reader however the stream was cut, and passed through unchanged by the relay. */
module Framing {

  type Bytes = seq<bv8>

  const NEWLINE: bv8 := 10

  datatype Option<T> = None | Some(value: T)

  /** The envelope encoding. `encode` is None for a payload that cannot be marshalled, `decode` for
      a line that is not an envelope. */
  datatype Codec<!E> = Codec(encode: E -> Option<Bytes>, decode: Bytes -> Option<E>)

  /** JSON escapes control characters inside strings (section 7 of RFC 8259), and a decoder accepts
      the whitespace that ends a line. */
  ghost predicate Faithful<E(!new)>(codec: Codec<E>) {
    forall e | codec.encode(e).Some? ::
      NEWLINE !in codec.encode(e).value && codec.decode(codec.encode(e).value + [NEWLINE]) == Some(e)
  }

  // ----- what is written and read, as functions of the byte stream -----

  function Frame<E>(codec: Codec<E>, e: E): Bytes {
    match codec.encode(e)
    case None => []
    case Some(body) => body + [NEWLINE]
  }

  function Wire<E>(codec: Codec<E>, es: seq<E>): Bytes {
    if es == [] then [] else Frame(codec, es[0]) + Wire(codec, es[1..])
  }

  function Encodable<E>(codec: Codec<E>, es: seq<E>): seq<E> {
    if es == [] then []
    else (if codec.encode(es[0]).Some? then [es[0]] else []) + Encodable(codec, es[1..])
  }

  /** The length of the first line, its newline included. */
  function Cut(s: Bytes): (k: nat)
    requires NEWLINE in s
    ensures 0 < k <= |s| && FirstLineEnds(s, k)
  {
    if s[0] == NEWLINE then 1 else 1 + Cut(s[1..])
  }

  ghost predicate FirstLineEnds(s: Bytes, k: nat) {
    0 < k <= |s| && s[k - 1] == NEWLINE && forall i | 0 <= i < k - 1 :: s[i] != NEWLINE
  }

  function Line(s: Bytes): Bytes {
    if NEWLINE in s then s[..Cut(s)] else s
  }

  function AfterLine(s: Bytes): Bytes {
    if NEWLINE in s then s[Cut(s)..] else []
  }

  function Received<E>(codec: Codec<E>, s: Bytes): Option<E> {
    if NEWLINE in s then codec.decode(Line(s)) else None
  }

  /** Everything a read loop takes from the stream before its first error. */
  function Messages<E>(codec: Codec<E>, s: Bytes): seq<E>
    decreases |s|
  {
    match Received(codec, s)
    case None => []
    case Some(e) => [e] + Messages(codec, AfterLine(s))
  }

  // ----- the objects -----

  function Flat(chunks: seq<Bytes>): Bytes {
    if chunks == [] then [] else chunks[0] + Flat(chunks[1..])
  }

  /** What a connection takes of `b` that breaks after `room` more bytes. */
  function Taken(b: Bytes, room: nat): Bytes {
    if |b| <= room then b else b[..room]
  }

  /** The sending end of a connection; `room` is how much it still takes before it breaks. */
  class Writer {
    var bytes: Bytes
    var room: nat

    constructor (room: nat)
      ensures bytes == [] && this.room == room
    {
      bytes, this.room := [], room;
    }

    method Write(b: Bytes) returns (ok: bool)
      modifies this
      ensures ok <==> |b| <= old(room)
      ensures bytes == old(bytes) + Taken(b, old(room)) && room == old(room) - |Taken(b, old(room))|
    {
      ok := |b| <= room;
      bytes, room := bytes + Taken(b, room), room - |Taken(b, room)|;
    }
  }

  /** A buffered reader over a connection that delivers its bytes in chunks of any size. */
  class Reader {
    var buffered: Bytes
    var incoming: seq<Bytes>

    constructor (chunks: seq<Bytes>)
      ensures Stream() == Flat(chunks)
    {
      buffered, incoming := [], chunks;
    }

    ghost function Stream(): Bytes
      reads this
    {
      buffered + Flat(incoming)
    }

    method ReadBytes() returns (line: Bytes, ok: bool)
      modifies this
      ensures ok <==> NEWLINE in old(Stream())
      ensures line == Line(old(Stream())) && Stream() == AfterLine(old(Stream()))
    {
      hide Line, AfterLine, Flat;
      line := [];
      while NEWLINE !in buffered
        invariant line + Stream() == old(Stream()) && NEWLINE !in line
        decreases |incoming|
      {
        FirstChunk(incoming);
        Regroup(line, buffered, Flat(incoming));
        line := line + buffered;
        if incoming == [] {
          buffered := [];
          NoLine(line);
          return line, false;
        }
        buffered, incoming := incoming[0], incoming[1..];
      }
      var k := Cut(buffered);
      LineAcross(line, buffered, Flat(incoming));
      line, buffered := line + buffered[..k], buffered[k..];
      return line, true;
    }
  }

  lemma CutIs(s: Bytes, k: nat)
    requires FirstLineEnds(s, k)
    ensures NEWLINE in s && Cut(s) == k
  {
    assert s[k - 1] in s;
    var c := Cut(s);
    assert s[c - 1] == NEWLINE;
  }

  lemma FirstLineAcross(a: Bytes, s: Bytes, k: nat, rest: Bytes)
    requires NEWLINE !in a && FirstLineEnds(s, k)
    ensures FirstLineEnds(a + (s + rest), |a| + k)
  {
    var stream := a + (s + rest);
    assert forall i | 0 <= i < |a| :: stream[i] == a[i] && a[i] in a;
    assert forall i | |a| <= i < |a| + |s| :: stream[i] == s[i - |a|];
  }

  lemma SplitAcross(a: Bytes, s: Bytes, k: nat, rest: Bytes)
    requires k <= |s|
    ensures var stream := a + (s + rest);
            stream[..|a| + k] == a + s[..k] && stream[|a| + k..] == s[k..] + rest
  {}

  /** The first line of a stream, of which `a` was read from earlier chunks. */
  lemma LineAcross(a: Bytes, s: Bytes, rest: Bytes)
    requires NEWLINE !in a && NEWLINE in s
    ensures var stream := a + (s + rest);
            NEWLINE in stream && Line(stream) == a + s[..Cut(s)] && AfterLine(stream) == s[Cut(s)..] + rest
  {
    hide Cut, FirstLineEnds;
    FirstLineAcross(a, s, Cut(s), rest);
    CutIs(a + (s + rest), |a| + Cut(s));
    SplitAcross(a, s, Cut(s), rest);
  }

  lemma Regroup(a: Bytes, b: Bytes, c: Bytes)
    ensures a + (b + c) == (a + b) + c
    ensures c == [] ==> a + (b + c) == a + b && [] + c == []
  {}

  lemma NoLine(s: Bytes)
    requires NEWLINE !in s
    ensures Line(s) == s && AfterLine(s) == []
  {}

  lemma FirstChunk(chunks: seq<Bytes>)
    ensures Flat(chunks) == if chunks == [] then [] else chunks[0] + Flat(chunks[1..])
  {}

  lemma OneByOne<E>(codec: Codec<E>, s: Bytes)
    ensures match Received(codec, s)
            case None => Messages(codec, s) == []
            case Some(e) => Messages(codec, s) == [e] + Messages(codec, AfterLine(s)) && |AfterLine(s)| < |s|
  {}

  class Encoder<E> {
    const codec: Codec<E>
    const w: Writer

    constructor (codec: Codec<E>, w: Writer)
      ensures this.codec == codec && this.w == w
    {
      this.codec, this.w := codec, w;
    }

    method Send(e: E) returns (ok: bool)
      modifies w
      ensures ok <==> codec.encode(e).Some? && |Frame(codec, e)| <= old(w.room)
      ensures var sent := Taken(Frame(codec, e), old(w.room));
              w.bytes == old(w.bytes) + sent && w.room == old(w.room) - |sent|
    {
      match codec.encode(e) {
        case None => ok := false;
        case Some(body) => ok := w.Write(body + [NEWLINE]);
      }
    }
  }

  class Decoder<E> {
    const codec: Codec<E>
    const r: Reader

    constructor (codec: Codec<E>, r: Reader)
      ensures this.codec == codec && this.r == r
    {
      this.codec, this.r := codec, r;
    }

    method Recv() returns (e: Option<E>)
      modifies r
      ensures e == Received(codec, old(r.Stream())) && r.Stream() == AfterLine(old(r.Stream()))
    {
      var line, ok := r.ReadBytes();
      e := if ok then codec.decode(line) else None;
    }

    /** Reads until the first error; `got` is what was dispatched. */
    method ReadLoop() returns (got: seq<E>)
      modifies r
      ensures got == Messages(codec, old(r.Stream()))
    {
      hide Messages, Received, AfterLine;
      got := [];
      while true
        invariant got + Messages(codec, r.Stream()) == old(Messages(codec, r.Stream()))
        decreases |r.Stream()|
      {
        OneByOne(codec, r.Stream());
        var e := Recv();
        if e.None? {
          return;
        }
        got := got + [e.value];
      }
    }
  }

  // ----- the relay -----

  /** The token a stream's first line asks for, empty when it is no join line. */
  function JoinToken<E>(codec: Codec<E>, tokenOf: E -> string, s: Bytes): string {
    match Received(codec, s)
    case None => ""
    case Some(e) => tokenOf(e)
  }

  /** Reads a leg's join line; the empty token stands for a connection closed at once. */
  method ReadJoin<E>(codec: Codec<E>, tokenOf: E -> string, r: Reader) returns (token: string)
    modifies r
    ensures token == JoinToken(codec, tokenOf, old(r.Stream()))
    ensures r.Stream() == AfterLine(old(r.Stream()))
  {
    var line, ok := r.ReadBytes();
    if !ok {
      return "";
    }
    match codec.decode(line) {
      case None => return "";
      case Some(e) => return tokenOf(e);
    }
  }

  /** One direction of a piped pair: what the reader has buffered, then the rest, until the other
      leg's connection breaks. */
  method PipeLeg(dst: Writer, src: Reader) returns (ok: bool)
    modifies dst, src
    ensures dst.bytes == old(dst.bytes) + Taken(old(src.Stream()), old(dst.room))
    ensures ok <==> |old(src.Stream())| <= old(dst.room)
    ensures ok ==> src.Stream() == []
  {
    hide Taken, Flat;
    ghost var whole, room, start := src.Stream(), dst.room, dst.bytes;
    ok := dst.Write(src.buffered);
    ghost var sent := src.buffered;
    PipedOne(whole, [], sent, Flat(src.incoming), room);
    assert [] + sent == sent;
    src.buffered := [];
    while ok && src.incoming != []
      invariant src.buffered == []
      invariant dst.bytes == start + Taken(sent, room) && (ok <==> |sent| <= room)
      invariant ok ==> dst.room == room - |sent| && whole == sent + Flat(src.incoming) && Taken(sent, room) == sent
      invariant !ok ==> Taken(whole, room) == Taken(sent, room) && |whole| > room
      decreases |src.incoming|, ok
    {
      FirstChunk(src.incoming);
      PipedOne(whole, sent, src.incoming[0], Flat(src.incoming[1..]), room);
      Regroup(start, sent, Taken(src.incoming[0], dst.room));
      ok := dst.Write(src.incoming[0]);
      sent := sent + src.incoming[0];
      src.incoming := src.incoming[1..];
    }
    FirstChunk(src.incoming);
    assert ok ==> whole == sent + [] == sent;
  }

  /** One more chunk of a stream `whole`, `sent` having gone through. */
  lemma PipedOne(whole: Bytes, sent: Bytes, chunk: Bytes, rest: Bytes, room: nat)
    requires whole == sent + (chunk + rest) && |sent| <= room
    ensures whole == (sent + chunk) + rest
    ensures Taken(sent + chunk, room) == sent + Taken(chunk, room - |sent|)
    ensures |chunk| <= room - |sent| ==>
      Taken(chunk, room - |sent|) == chunk && Taken(sent + chunk, room) == sent + chunk
    ensures |sent + chunk| > room ==> Taken(whole, room) == Taken(sent + chunk, room) && |whole| > room
  {}

  /** What of a joining leg's stream reaches the other leg. */
  function Relayed<E>(codec: Codec<E>, tokenOf: E -> string, s: Bytes, room: nat): Bytes {
    if JoinToken(codec, tokenOf, s) == "" then [] else Taken(AfterLine(s), room)
  }

  /** The relay's work on one leg: its join line, then its bytes into the other leg's connection. */
  method ServeLeg<E>(codec: Codec<E>, tokenOf: E -> string, src: Reader, dst: Writer) returns (token: string)
    modifies src, dst
    ensures token == JoinToken(codec, tokenOf, old(src.Stream()))
    ensures dst.bytes == old(dst.bytes) + Relayed(codec, tokenOf, old(src.Stream()), old(dst.room))
  {
    hide Received, AfterLine;
    token := ReadJoin(codec, tokenOf, src);
    if token != "" {
      var ok := PipeLeg(dst, src);
    }
  }

  // ----- what arrives -----

  lemma FrameComesFirst<E(!new)>(codec: Codec<E>, e: E, rest: Bytes)
    requires Faithful(codec) && codec.encode(e).Some?
    ensures var s := Frame(codec, e) + rest;
            Received(codec, s) == Some(e) && AfterLine(s) == rest
  {
    var body := codec.encode(e).value;
    CutIs([NEWLINE], 1);
    LineAcross(body, [NEWLINE], rest);
    assert Frame(codec, e) + rest == body + ([NEWLINE] + rest);
  }

  lemma FrameIsReceived<E(!new)>(codec: Codec<E>, e: E, rest: Bytes)
    requires Faithful(codec)
    ensures Messages(codec, Frame(codec, e) + rest) ==
            (if codec.encode(e).Some? then [e] else []) + Messages(codec, rest)
  {
    if codec.encode(e).Some? {
      FrameComesFirst(codec, e, rest);
    } else {
      assert Frame(codec, e) + rest == rest;
    }
  }

  /** Whatever was sent is received, in order and nothing else. */
  lemma {:induction false} DeliveredExactly<E(!new)>(codec: Codec<E>, es: seq<E>)
    requires Faithful(codec)
    ensures Messages(codec, Wire(codec, es)) == Encodable(codec, es)
  {
    if es == [] {
    } else {
      DeliveredExactly(codec, es[1..]);
      FrameIsReceived(codec, es[0], Wire(codec, es[1..]));
    }
  }

  lemma WireOneMore<E>(codec: Codec<E>, es: seq<E>, i: nat)
    requires i < |es|
    ensures Wire(codec, es[..i + 1]) == Frame(codec, es[0]) + Wire(codec, es[1..][..i])
    ensures Encodable(codec, es[..i + 1]) ==
            (if codec.encode(es[0]).Some? then [es[0]] else []) + Encodable(codec, es[1..][..i])
  {
    assert es[..i + 1][1..] == es[1..][..i];
  }

  lemma BreakInFirst<E(!new)>(codec: Codec<E>, es: seq<E>, k: nat)
    requires Faithful(codec) && es != [] && k < |Frame(codec, es[0])|
    ensures k <= |Wire(codec, es)| && Messages(codec, Wire(codec, es)[..k]) == []
  {
    assert Wire(codec, es)[..k] == codec.encode(es[0]).value[..k];
  }

  lemma BreakAfterFirst<E(!new)>(codec: Codec<E>, es: seq<E>, k: nat)
    requires Faithful(codec) && es != [] && |Frame(codec, es[0])| <= k <= |Wire(codec, es)|
    ensures var n := k - |Frame(codec, es[0])|;
      && n <= |Wire(codec, es[1..])|
      && Messages(codec, Wire(codec, es)[..k]) ==
         (if codec.encode(es[0]).Some? then [es[0]] else []) + Messages(codec, Wire(codec, es[1..])[..n])
  {
    hide Messages, Frame;
    var frame, rest := Frame(codec, es[0]), Wire(codec, es[1..]);
    assert Wire(codec, es) == frame + rest;
    assert (frame + rest)[..k] == frame + rest[..k - |frame|];
    FrameIsReceived(codec, es[0], rest[..k - |frame|]);
  }

  /** A stream that breaks off after `k` bytes delivers the envelopes whose lines it completed. */
  lemma {:induction false} DeliveredUpToTheBreak<E(!new)>(codec: Codec<E>, es: seq<E>, k: nat) returns (j: nat)
    requires Faithful(codec) && k <= |Wire(codec, es)|
    ensures j <= |es| && Messages(codec, Wire(codec, es)[..k]) == Encodable(codec, es[..j])
    ensures |Wire(codec, es[..j])| <= k
    ensures j < |es| ==> k < |Wire(codec, es[..j + 1])|
  {
    if es == [] {
      j := 0;
    } else {
      WireOneMore(codec, es, 0);
      if k < |Frame(codec, es[0])| {
        j := 0;
        BreakInFirst(codec, es, k);
      } else {
        hide Wire, Encodable, Messages, Frame, Faithful;
        BreakAfterFirst(codec, es, k);
        var i := DeliveredUpToTheBreak(codec, es[1..], k - |Frame(codec, es[0])|);
        j := i + 1;
        WireOneMore(codec, es, i);
        if j < |es| { WireOneMore(codec, es, i + 1); }
      }
    }
  }

  /** How many bytes get past the join line and both ends, the sender's breaking after `k` bytes and
      the receiver's after `room` more. */
  function Through(joinLine: nat, k: nat, room: nat): nat {
    if k < joinLine then 0 else if k - joinLine <= room then k - joinLine else room
  }

  lemma RelayedBytes<E(!new)>(codec: Codec<E>, tokenOf: E -> string, join: E, es: seq<E>, k: nat, room: nat)
    requires Faithful(codec) && codec.encode(join).Some? && tokenOf(join) != "" && k <= |Wire(codec, [join] + es)|
    ensures var joinLine := |Frame(codec, join)|;
      var arrived, n := Wire(codec, [join] + es)[..k], Through(joinLine, k, room);
      && JoinToken(codec, tokenOf, arrived) == (if k < joinLine then "" else tokenOf(join))
      && n <= |Wire(codec, es)| && Relayed(codec, tokenOf, arrived, room) == Wire(codec, es)[..n]
  {
    var frame, rest := Frame(codec, join), Wire(codec, es);
    assert ([join] + es)[1..] == es;
    assert Wire(codec, [join] + es) == frame + rest;
    if k < |frame| {
      assert (frame + rest)[..k] == codec.encode(join).value[..k];
    } else {
      assert (frame + rest)[..k] == frame + rest[..k - |frame|];
      FrameComesFirst(codec, join, rest[..k - |frame|]);
    }
  }

  /** The relay is transparent. However a joining leg's stream reached it, and however its output
      reaches the other leg: what gets through the breaks of both connections yields the other leg
      the envelopes, sent after the join line, whose lines got through whole. */
  lemma RelayIsTransparent<E(!new)>(codec: Codec<E>, tokenOf: E -> string, join: E, es: seq<E>,
                                    arrived: seq<Bytes>, k: nat, room: nat, forwarded: seq<Bytes>) returns (j: nat)
    requires Faithful(codec) && codec.encode(join).Some? && tokenOf(join) != ""
    requires k <= |Wire(codec, [join] + es)| && Flat(arrived) == Wire(codec, [join] + es)[..k]
    requires Flat(forwarded) == Relayed(codec, tokenOf, Flat(arrived), room)
    ensures JoinToken(codec, tokenOf, Flat(arrived)) == if k < |Frame(codec, join)| then "" else tokenOf(join)
    ensures j <= |es| && Messages(codec, Flat(forwarded)) == Encodable(codec, es[..j])
    ensures var n := Through(|Frame(codec, join)|, k, room);
      |Wire(codec, es[..j])| <= n && (j < |es| ==> n < |Wire(codec, es[..j + 1])|)
  {
    hide Messages, Encodable, Wire, Frame, Relayed, JoinToken, Faithful;
    RelayedBytes(codec, tokenOf, join, es, k, room);
    j := DeliveredUpToTheBreak(codec, es, Through(|Frame(codec, join)|, k, room));
  }
}
