/**
 RFC 6455 section 5.2 framing as packages/protocol/src/websocket.js implements it: a parser
 that keeps unread bytes in a buffer, and the encoder for outgoing text frames.
 */
module WebSocketFraming {
  import opened Options

  type Byte = b: int | 0 <= b < 256

  const MAX_SAFE_INTEGER := 0x1F_FFFF_FFFF_FFFF

  /** What the parser puts into the world: a "message" event or a frame written to the socket. */
  datatype Output = Message(text: seq<Byte>) | Pong(payload: seq<Byte>) | CloseFrame(code: nat)

  datatype Peer = Peer(buffer: seq<Byte>, closed: bool, crashed: bool, log: seq<Output>)

  const FRESH := Peer([], false, false, [])

  // ---------------------------------------------------------------- bytes

  function Pow2(n: nat): (r: nat)
    ensures r > 0
  {
    if n == 0 then 1 else 2 * Pow2(n - 1)
  }

  /** Bitwise exclusive or of the low n bits. */
  function XorBits(a: nat, b: nat, n: nat): (r: nat)
    ensures r < Pow2(n)
  {
    if n == 0 then 0 else 2 * XorBits(a / 2, b / 2, n - 1) + (a % 2 + b % 2) % 2
  }

  lemma Halves(x: nat, q: nat, bit: nat)
    requires x == 2 * q + bit && bit < 2
    ensures x / 2 == q && x % 2 == bit
  {
  }

  lemma BitUndoesItself(a: nat, b: nat)
    ensures ((a % 2 + b % 2) % 2 + b % 2) % 2 == a % 2 && a == 2 * (a / 2) + a % 2
  {
  }

  lemma {:induction false} XorBitsUndoesItself(a: nat, b: nat, n: nat)
    requires a < Pow2(n)
    ensures XorBits(XorBits(a, b, n), b, n) == a
  {
    if n != 0 {
      var q, bit := XorBits(a / 2, b / 2, n - 1), (a % 2 + b % 2) % 2;
      var x := XorBits(a, b, n);
      assert x == 2 * q + bit && a / 2 < Pow2(n - 1);
      XorBitsUndoesItself(a / 2, b / 2, n - 1);
      assert XorBits(x, b, n) == 2 * XorBits(x / 2, b / 2, n - 1) + (x % 2 + b % 2) % 2;
      hide XorBits, Pow2;
      Halves(x, q, bit);
      BitUndoesItself(a, b);
    }
  }

  function XorByte(a: Byte, b: Byte): Byte {
    assert Pow2(8) == 256;
    XorBits(a, b, 8)
  }

  /** Payload byte i is combined with mask byte i % 4. */
  function Masked(payload: seq<Byte>, mask: seq<Byte>): (r: seq<Byte>)
    requires |mask| == 4
    ensures |r| == |payload|
  {
    seq(|payload|, i requires 0 <= i < |payload| => XorByte(payload[i], mask[i % 4]))
  }

  lemma MaskedUndoesItself(payload: seq<Byte>, mask: seq<Byte>)
    requires |mask| == 4
    ensures Masked(Masked(payload, mask), mask) == payload
  {
    assert Pow2(8) == 256;
    forall i | 0 <= i < |payload| ensures Masked(Masked(payload, mask), mask)[i] == payload[i] {
      XorBitsUndoesItself(payload[i], mask[i % 4], 8);
    }
  }

  /** Bit k of a number, the lowest being bit 0. */
  function Bit(n: nat, k: nat): bool {
    if k == 0 then n % 2 == 1 else Bit(n / 2, k - 1)
  }

  lemma {:induction false} XorBitsBit(a: nat, b: nat, n: nat, k: nat)
    requires k < n
    ensures Bit(XorBits(a, b, n), k) <==> (Bit(a, k) <==> !Bit(b, k))
    decreases n
  {
    var q, bit := XorBits(a / 2, b / 2, n - 1), (a % 2 + b % 2) % 2;
    assert XorBits(a, b, n) == 2 * q + bit;
    if k > 0 { XorBitsBit(a / 2, b / 2, n - 1, k - 1); }
    hide XorBits, Pow2;
    Halves(2 * q + bit, q, bit);
  }

  /** Masking is exclusive or, bit by bit, with the four mask bytes in turn. */
  lemma MaskedBitByBit(payload: seq<Byte>, mask: seq<Byte>, i: nat, k: nat)
    requires |mask| == 4 && i < |payload| && k < 8
    ensures Bit(Masked(payload, mask)[i], k) <==> (Bit(payload[i], k) <==> !Bit(mask[i % 4], k))
  {
    hide Bit;
    XorBitsBit(payload[i], mask[i % 4], 8, k);
  }

  function ToBigEndian(n: nat, width: nat): (r: seq<Byte>)
    ensures |r| == width
  {
    if width == 0 then [] else ToBigEndian(n / 256, width - 1) + [n % 256]
  }

  function FromBigEndian(bytes: seq<Byte>): nat {
    if bytes == [] then 0 else 256 * FromBigEndian(bytes[..|bytes| - 1]) + bytes[|bytes| - 1]
  }

  function Pow256(n: nat): nat {
    if n == 0 then 1 else 256 * Pow256(n - 1)
  }

  lemma {:induction false} BigEndianRoundTrip(n: nat, width: nat)
    requires n < Pow256(width)
    ensures FromBigEndian(ToBigEndian(n, width)) == n
  {
    if width != 0 {
      BigEndianRoundTrip(n / 256, width - 1);
      var r := ToBigEndian(n, width);
      assert r[..|r| - 1] == ToBigEndian(n / 256, width - 1);
    }
  }

  // ---------------------------------------------------------------- one frame

  datatype Length = Short | TooBig | Known(length: nat, offset: nat)

  /** The payload length and where the bytes after it start. */
  function LengthField(buf: seq<Byte>): Length
    requires |buf| >= 2
  {
    var length := buf[1] % 128;
    if length == 126 then
      if |buf| < 4 then Short else Known(FromBigEndian(buf[2..4]), 4)
    else if length == 127 then
      if |buf| < 10 then Short
      else if FromBigEndian(buf[2..10]) > MAX_SAFE_INTEGER then TooBig
      else Known(FromBigEndian(buf[2..10]), 10)
    else
      Known(length, 2)
  }

  datatype Parse = Incomplete | TooLarge | Frame(fin: bool, opcode: nat, payload: seq<Byte>, size: nat)

  /** One look at the head of the buffer; `size` is the number of bytes a complete frame takes. */
  function ParseFrame(buf: seq<Byte>): (r: Parse)
    ensures r.Frame? ==> 2 <= r.size <= |buf|
  {
    if |buf| < 2 then Incomplete else
    match LengthField(buf)
    case Short => Incomplete
    case TooBig => TooLarge
    case Known(length, afterLength) =>
      var masked := buf[1] >= 128;
      if masked && |buf| < afterLength + 4 then Incomplete else
      var offset := if masked then afterLength + 4 else afterLength;
      if |buf| < offset + length then Incomplete else
      var raw := buf[offset..offset + length];
      var payload := if masked then Masked(raw, buf[afterLength..afterLength + 4]) else raw;
      Frame(buf[0] >= 128, buf[0] % 16, payload, offset + length)
  }

  /** A frame is too large exactly when it announces more than 2^53 - 1 bytes. */
  lemma TooLargeExactly(buf: seq<Byte>)
    ensures ParseFrame(buf).TooLarge? <==>
              |buf| >= 10 && buf[1] % 128 == 127 && FromBigEndian(buf[2..10]) > 9_007_199_254_740_991
  {
    hide Masked, FromBigEndian, XorBits, Pow2;
  }

  lemma SameSlice(buf: seq<Byte>, more: seq<Byte>, i: nat, j: nat)
    requires i <= j <= |buf|
    ensures (buf + more)[i..j] == buf[i..j]
  {
  }

  lemma LengthFieldIgnoresLaterBytes(buf: seq<Byte>, more: seq<Byte>)
    requires |buf| >= 2
    ensures !LengthField(buf).Short? ==> LengthField(buf + more) == LengthField(buf)
  {
    hide FromBigEndian;
    if |buf| >= 4 { SameSlice(buf, more, 2, 4); }
    if |buf| >= 10 { SameSlice(buf, more, 2, 10); }
  }

  /** A verdict other than "wait for more" does not change when bytes arrive behind it. */
  lemma VerdictIgnoresLaterBytes(buf: seq<Byte>, more: seq<Byte>)
    ensures !ParseFrame(buf).Incomplete? ==> ParseFrame(buf + more) == ParseFrame(buf)
  {
    hide Masked, LengthField, XorBits, Pow2;
    if |buf| >= 2 {
      LengthFieldIgnoresLaterBytes(buf, more);
      if LengthField(buf).Known? {
        var afterLength, length := LengthField(buf).offset, LengthField(buf).length;
        var offset := if buf[1] >= 128 then afterLength + 4 else afterLength;
        if |buf| >= offset + length {
          SameSlice(buf, more, offset, offset + length);
          if buf[1] >= 128 { SameSlice(buf, more, afterLength, afterLength + 4); }
        }
      }
    }
  }

  /** A complete frame is read from its own bytes alone. */
  lemma FrameNeedsOnlyItsBytes(buf: seq<Byte>, n: nat)
    requires ParseFrame(buf).Frame? && ParseFrame(buf).size <= n <= |buf|
    ensures ParseFrame(buf[..n]) == ParseFrame(buf)
  {
    assert buf[..n] + buf[n..] == buf;
    var head := buf[..n];
    if buf[1] % 128 == 126 { assert head[2..4] == buf[2..4]; }
    if buf[1] % 128 == 127 { assert head[2..10] == buf[2..10]; }
    assert !ParseFrame(head).Incomplete?;
    VerdictIgnoresLaterBytes(head, buf[n..]);
  }

  // ---------------------------------------------------------------- the receive loop

  function Close(p: Peer, code: nat): Peer {
    if p.closed then p else p.(closed := true, log := p.log + [CloseFrame(code)])
  }

  /** The receive loop: frames are handled until the buffer runs dry or one of them ends the loop. */
  function Drain(p: Peer): (r: Peer)
    ensures |r.buffer| <= |p.buffer|
    ensures ParseFrame(p.buffer).Frame? ==> |r.buffer| < |p.buffer|
    ensures p.crashed ==> r.crashed
    decreases |p.buffer|
  {
    match ParseFrame(p.buffer)
    case Incomplete => p
    case TooLarge => Close(p, 1009)
    case Frame(fin, opcode, payload, size) =>
      var q := p.(buffer := p.buffer[size..]);
      if !fin then Close(q, 1003)
      else if opcode == 1 then Drain(q.(log := q.log + [Message(payload)]))
      else if opcode == 8 then Close(q, 1000)
      else if opcode == 9 then
        // frame() throws on a control payload of 126 bytes or more
        if |payload| >= 126 then q.(crashed := true) else Drain(q.(log := q.log + [Pong(payload)]))
      else Drain(q)
  }

  /** One "data" event. Nothing is delivered after an uncaught throw. */
  function Feed(p: Peer, chunk: seq<Byte>): Peer {
    if p.crashed then p else Drain(p.(buffer := p.buffer + chunk))
  }

  function FeedAll(p: Peer, chunks: seq<seq<Byte>>): Peer
    decreases |chunks|
  {
    if chunks == [] then p else FeedAll(Feed(p, chunks[0]), chunks[1..])
  }

  function Flatten(chunks: seq<seq<Byte>>): seq<Byte> {
    if chunks == [] then [] else chunks[0] + Flatten(chunks[1..])
  }

  /** Where the loop stops on a buffer, with the bytes it leaves behind. */
  datatype Ending = Waiting | Oversize | Stopped(rest: seq<Byte>) | Thrown(rest: seq<Byte>)

  function EndingOf(buf: seq<Byte>): (e: Ending)
    ensures e.Stopped? || e.Thrown? ==> |e.rest| < |buf| && buf[|buf| - |e.rest|..] == e.rest
    decreases |buf|
  {
    match ParseFrame(buf)
    case Incomplete => Waiting
    case TooLarge => Oversize
    case Frame(fin, opcode, payload, size) =>
      var rest := buf[size..];
      if !fin || opcode == 8 then Stopped(rest)
      else if opcode == 9 && |payload| >= 126 then Thrown(rest)
      else EndingOf(rest)
  }

  /**
   The condition under which packet boundaries cannot be observed: either the loop never stops
   early, or it closes with no complete frame behind it, or it throws on the very last byte.
   */
  predicate Unsplittable(buf: seq<Byte>) {
    match EndingOf(buf)
    case Waiting => true
    case Oversize => true
    case Stopped(rest) => !ParseFrame(rest).Frame?
    case Thrown(rest) => rest == []
  }

  /** Feeding a then b is feeding a + b when the whole is unsplittable, and what is left stays so. */
  lemma {:induction false} FeedJoins(p: Peer, a: seq<Byte>, b: seq<Byte>)
    requires !p.crashed && Unsplittable(p.buffer + (a + b))
    ensures Feed(Feed(p, a), b) == Feed(p, a + b)
    ensures if Feed(p, a).crashed then b == [] else Unsplittable(Feed(p, a).buffer + b)
    decreases |p.buffer + a|
  {
    hide ParseFrame;
    var buf := p.buffer + a;
    assert p.buffer + (a + b) == buf + b;
    VerdictIgnoresLaterBytes(buf, b);
    match ParseFrame(buf)
    case Incomplete =>
    case TooLarge =>
      assert Feed(p, a).buffer + b == buf + b;
    case Frame(fin, opcode, payload, size) =>
      var rest := buf[size..];
      assert (buf + b)[size..] == rest + b;
      if !fin || opcode == 8 {
        assert !ParseFrame(rest + b).Frame?;
      } else if opcode == 9 && |payload| >= 126 {
        assert b == [];
        assert rest + b == [];
      } else {
        var out := if opcode == 1 then [Message(payload)] else if opcode == 9 then [Pong(payload)] else [];
        var q := p.(buffer := rest, log := p.log + out);
        assert p.log + [] == p.log;
        assert rest + [] == rest && [] + b == b;
        FeedJoins(q, [], b);
      }
  }

  lemma {:induction false} CrashIsFinal(p: Peer, chunks: seq<seq<Byte>>)
    requires p.crashed
    ensures FeedAll(p, chunks) == p
    decreases |chunks|
  {
    if chunks != [] { CrashIsFinal(p, chunks[1..]); }
  }

  lemma {:induction false} ChunksJoin(p: Peer, chunks: seq<seq<Byte>>)
    requires chunks != [] && !p.crashed && Unsplittable(p.buffer + Flatten(chunks))
    ensures FeedAll(p, chunks) == Feed(p, Flatten(chunks))
    decreases |chunks|
  {
    var tail := Flatten(chunks[1..]);
    FeedJoins(p, chunks[0], tail);
    var q := Feed(p, chunks[0]);
    if q.crashed {
      CrashIsFinal(q, chunks[1..]);
    } else if |chunks| == 1 {
      assert chunks[0] + [] == chunks[0];
    } else {
      ChunksJoin(q, chunks[1..]);
    }
  }

  /** What a frame that does not end the loop adds to the log. */
  function Emitted(opcode: nat, payload: seq<Byte>): seq<Output> {
    if opcode == 1 then [Message(payload)] else if opcode == 9 then [Pong(payload)] else []
  }

  predicate GoesOn(f: Parse) {
    f.Frame? && f.fin && f.opcode != 8 && !(f.opcode == 9 && |f.payload| >= 126)
  }

  /** A frame that does not end the loop. */
  lemma Continues(p: Peer)
    requires GoesOn(ParseFrame(p.buffer))
    ensures var f := ParseFrame(p.buffer);
            var q := p.(buffer := p.buffer[f.size..], log := p.log + Emitted(f.opcode, f.payload));
            Drain(p) == Drain(q) && EndingOf(p.buffer) == EndingOf(q.buffer)
  {
    hide ParseFrame;
    assert p.log + [] == p.log;
  }

  /** A frame that ends it. */
  lemma Ends(p: Peer)
    requires ParseFrame(p.buffer).Frame? && !GoesOn(ParseFrame(p.buffer))
    ensures var f := ParseFrame(p.buffer);
            var q := p.(buffer := p.buffer[f.size..]);
            var thrown := f.fin && f.opcode == 9;
            && EndingOf(p.buffer) == (if thrown then Thrown(q.buffer) else Stopped(q.buffer))
            && Drain(p) == if !f.fin then Close(q, 1003) else if thrown then q.(crashed := true) else Close(q, 1000)
  {
  }

  lemma EarlyStopIsAtAFrame(buf: seq<Byte>)
    requires EndingOf(buf).Stopped? || EndingOf(buf).Thrown?
    ensures ParseFrame(buf).Frame? && ParseFrame(buf).size <= |buf| - |EndingOf(buf).rest|
  {
  }

  /** The bytes up to an early stop, fed alone, stop at the same place with nothing left over. */
  lemma {:induction false} StopNeedsOnlyItsBytes(p: Peer)
    requires EndingOf(p.buffer).Stopped? || EndingOf(p.buffer).Thrown?
    ensures var used := p.buffer[..|p.buffer| - |EndingOf(p.buffer).rest|];
            Drain(p) == Drain(p.(buffer := used)).(buffer := EndingOf(p.buffer).rest)
            && Drain(p.(buffer := used)).buffer == []
    ensures Drain(p).crashed == (p.crashed || EndingOf(p.buffer).Thrown?)
    decreases |p.buffer|
  {
    hide ParseFrame, Drain, EndingOf;
    EarlyStopIsAtAFrame(p.buffer);
    var f := ParseFrame(p.buffer);
    var n := |p.buffer| - |EndingOf(p.buffer).rest|;
    var used := p.buffer[..n];
    var alone := p.(buffer := used);
    var tail := p.buffer[f.size..];
    FrameNeedsOnlyItsBytes(p.buffer, n);
    assert used[f.size..] == tail[..n - f.size];
    if GoesOn(f) {
      Continues(p);
      Continues(alone);
      StopNeedsOnlyItsBytes(p.(buffer := tail, log := p.log + Emitted(f.opcode, f.payload)));
    } else {
      Ends(p);
      Ends(alone);
    }
  }

  /**
   Two packets at the stop: the second is read although the one-packet run left it unread. The two runs end
   with different outputs, or at least with different bytes left in the buffer.
   */
  lemma SplitAtStopShows(stream: seq<Byte>)
    requires !Unsplittable(stream)
    ensures var rest := EndingOf(stream).rest;
            var used := stream[..|stream| - |rest|];
            Flatten([used, rest]) == stream && FeedAll(FRESH, [used, rest]) != Feed(FRESH, stream)
  {
    hide ParseFrame, Drain, EndingOf;
    var rest := EndingOf(stream).rest;
    var used := stream[..|stream| - |rest|];
    var two := [used, rest];
    var one: seq<seq<Byte>> := [rest];
    assert two[1..] == one && one[1..] == [];
    assert Flatten(one) == rest + [];
    assert Flatten(two) == stream;
    assert [] + stream == stream && [] + used == used && [] + rest == rest;
    StopNeedsOnlyItsBytes(Peer(stream, false, false, []));
    var q := Feed(FRESH, used);
    assert q.buffer == [];
    assert FeedAll(q, one) == Feed(q, rest);
    assert FeedAll(FRESH, two) == FeedAll(q, one);
  }

  /** Packet boundaries are unobservable on a connection exactly when its byte stream is unsplittable. */
  lemma StreamingEqualsBatch(stream: seq<Byte>)
    ensures (forall chunks :: Flatten(chunks) == stream ==> FeedAll(FRESH, chunks) == Feed(FRESH, stream))
            <==> Unsplittable(stream)
  {
    assert [] + stream == stream;
    if Unsplittable(stream) {
      forall chunks | Flatten(chunks) == stream ensures FeedAll(FRESH, chunks) == Feed(FRESH, stream) {
        if chunks != [] { ChunksJoin(FRESH, chunks); }
      }
    } else {
      SplitAtStopShows(stream);
    }
  }

  // ---------------------------------------------------------------- encoding

  /** The frame send() writes: FIN, text, and the shortest of the three length encodings. */
  function TextFrame(text: seq<Byte>): seq<Byte> {
    Encoded(1, text, None)
  }

  /** A final frame as either end may send it; clients mask theirs. */
  function Encoded(opcode: nat, payload: seq<Byte>, mask: Option<seq<Byte>>): seq<Byte>
    requires opcode < 16
    requires mask.Some? ==> |mask.value| == 4
  {
    var bit := if mask.Some? then 128 else 0;
    [128 + opcode] + LengthBytes(|payload|, bit)
    + (if mask.Some? then mask.value + Masked(payload, mask.value) else payload)
  }

  /** The length field written for n payload bytes. */
  function LengthBytes(n: nat, bit: nat): seq<Byte>
    requires bit in {0, 128}
  {
    if n < 126 then [bit + n]
    else if n <= 0xffff then [bit + 126] + ToBigEndian(n, 2)
    else [bit + 127] + ToBigEndian(n, 8)
  }

  lemma LengthByteShowsMask(n: nat, bit: nat)
    requires bit in {0, 128}
    ensures |LengthBytes(n, bit)| >= 1 && (LengthBytes(n, bit)[0] >= 128 <==> bit == 128)
  {
  }

  lemma LengthFieldReads(first: Byte, n: nat, bit: nat, more: seq<Byte>)
    requires bit in {0, 128} && n <= MAX_SAFE_INTEGER
    ensures LengthField([first] + LengthBytes(n, bit) + more) == Known(n, 1 + |LengthBytes(n, bit)|)
  {
    hide FromBigEndian, ToBigEndian, Pow256;
    var all := [first] + LengthBytes(n, bit) + more;
    if 126 <= n <= 0xffff {
      TwoOrEightBytes();
      BigEndianRoundTrip(n, 2);
      assert all[2..4] == ToBigEndian(n, 2);
    } else if n > 0xffff {
      TwoOrEightBytes();
      BigEndianRoundTrip(n, 8);
      assert all[2..10] == ToBigEndian(n, 8);
    }
  }

  lemma TwoOrEightBytes()
    ensures Pow256(2) == 0x10000 && Pow256(8) == 0x1_0000_0000_0000_0000
  {
  }

  /** What stands behind the head of a frame: the mask, if there is one, and the payload. */
  function Body(payload: seq<Byte>, mask: Option<seq<Byte>>): seq<Byte>
    requires mask.Some? ==> |mask.value| == 4
  {
    if mask.Some? then mask.value + Masked(payload, mask.value) else payload
  }

  lemma BodyIsRead(all: seq<Byte>, at: nat, payload: seq<Byte>, mask: Option<seq<Byte>>)
    requires mask.Some? ==> |mask.value| == 4
    requires 2 <= at <= |all| && all[at..] == Body(payload, mask) && LengthField(all) == Known(|payload|, at)
    requires mask.Some? <==> all[1] >= 128
    ensures ParseFrame(all) == Frame(all[0] >= 128, all[0] % 16, payload, |all|)
  {
    hide LengthField, Masked, FromBigEndian, XorBits, Pow2;
    if mask.Some? {
      assert all[at..at + 4] == all[at..][..4] == mask.value;
      assert all[at + 4..at + 4 + |payload|] == all[at..][4..] == Masked(payload, mask.value);
      MaskedUndoesItself(payload, mask.value);
    } else {
      assert all[at..at + |payload|] == payload;
    }
  }

  /** Decoding inverts encoding for every length encoding, masked or not, whatever follows. */
  lemma EncodeThenParse(opcode: nat, payload: seq<Byte>, mask: Option<seq<Byte>>, more: seq<Byte>)
    requires opcode < 16 && |payload| <= MAX_SAFE_INTEGER
    requires mask.Some? ==> |mask.value| == 4
    ensures ParseFrame(Encoded(opcode, payload, mask) + more)
            == Frame(true, opcode, payload, |Encoded(opcode, payload, mask)|)
  {
    hide LengthField, LengthBytes, ParseFrame, Masked, XorBits, Pow2;
    var bit := if mask.Some? then 128 else 0;
    var all := Encoded(opcode, payload, mask);
    var body := Body(payload, mask);
    assert all == [128 + opcode] + LengthBytes(|payload|, bit) + body;
    LengthFieldReads(128 + opcode, |payload|, bit, body);
    LengthByteShowsMask(|payload|, bit);
    var at := 1 + |LengthBytes(|payload|, bit)|;
    assert all[at..] == body;
    BodyIsRead(all, at, payload, mask);
    VerdictIgnoresLaterBytes(all, more);
  }

  /** The high byte comes first. */
  lemma HighByteFirst(bytes: seq<Byte>)
    ensures |bytes| == 2 ==> FromBigEndian(bytes) == bytes[1] + Pow256(1) * bytes[0]
    ensures |bytes| > 0 ==> FromBigEndian(bytes) == bytes[0] * Pow256(|bytes| - 1) + FromBigEndian(bytes[1..])
  {
    if |bytes| > 0 { HighByteWeighs(bytes); }
    if |bytes| == 2 { assert bytes[..1][..0] == []; }
  }

  lemma {:induction false} HighByteWeighs(bytes: seq<Byte>)
    requires bytes != []
    ensures FromBigEndian(bytes) == bytes[0] * Pow256(|bytes| - 1) + FromBigEndian(bytes[1..])
  {
    if |bytes| > 1 {
      var front := bytes[..|bytes| - 1];
      HighByteWeighs(front);
      assert bytes[1..][..|bytes| - 2] == front[1..];
    }
  }

  const HELLO: seq<Byte> := [0x48, 0x65, 0x6c, 0x6c, 0x6f]

  /** The unmasked text frame of section 5.7 of RFC 6455, and the heads of its two longer ones. */
  lemma ExamplesOfTheRfc(medium: seq<Byte>, long: seq<Byte>)
    requires |medium| == 256 && |long| == 65536
    ensures Encoded(1, HELLO, None) == [0x81, 0x05] + HELLO
    ensures Encoded(2, medium, None)[..4] == [0x82, 0x7e, 0x01, 0x00]
    ensures Encoded(2, long, None)[..10] == [0x82, 0x7f, 0, 0, 0, 0, 0, 1, 0, 0]
  {
    assert ToBigEndian(256, 2) == [1, 0] by { assert ToBigEndian(1, 1) == [1] && ToBigEndian(0, 0) == []; }
    LongLength();
    hide ToBigEndian;
  }

  lemma LongLength()
    ensures ToBigEndian(65536, 8) == [0, 0, 0, 0, 0, 1, 0, 0]
  {
    assert ToBigEndian(0, 4) == [0, 0, 0, 0] by { assert ToBigEndian(0, 2) == [0, 0]; }
    assert ToBigEndian(0, 5) == [0, 0, 0, 0, 0];
    assert ToBigEndian(1, 6) == [0, 0, 0, 0, 0, 1];
    assert ToBigEndian(256, 7) == [0, 0, 0, 0, 0, 1, 0];
  }

  /** What a peer does with one frame from the other side, whatever follows it. */
  lemma OneFrame(opcode: nat, payload: seq<Byte>, mask: Option<seq<Byte>>, more: seq<Byte>)
    requires opcode < 16 && |payload| <= MAX_SAFE_INTEGER
    requires mask.Some? ==> |mask.value| == 4
    ensures var frame := Encoded(opcode, payload, mask);
            Feed(FRESH, frame + more) ==
            if opcode == 8 then Peer(more, true, false, [CloseFrame(1000)])
            else if opcode == 9 && |payload| >= 126 then Peer(more, false, true, [])
            else Drain(Peer(more, false, false,
                            if opcode == 1 then [Message(payload)] else if opcode == 9 then [Pong(payload)] else []))
  {
    var frame := Encoded(opcode, payload, mask);
    EncodeThenParse(opcode, payload, mask, more);
    hide ParseFrame, Encoded;
    var p := Peer(frame + more, false, false, []);
    assert [] + (frame + more) == frame + more;
    assert (frame + more)[|frame|..] == more;
    assert p.log + [Message(payload)] == [Message(payload)] && p.log + [Pong(payload)] == [Pong(payload)];
    assert p.log + [CloseFrame(1000)] == [CloseFrame(1000)];
  }

  /** A length beyond the safe integers, and a frame that is not the last of its message, close the connection. */
  lemma Unreadable(p: Peer)
    requires !p.closed
    ensures ParseFrame(p.buffer).TooLarge? ==> Drain(p) == p.(closed := true, log := p.log + [CloseFrame(1009)])
    ensures ParseFrame(p.buffer).Frame? && !ParseFrame(p.buffer).fin ==>
              Drain(p) == p.(buffer := p.buffer[ParseFrame(p.buffer).size..], closed := true,
                             log := p.log + [CloseFrame(1003)])
  {
    hide ParseFrame;
  }

  /** A client's or a server's run of text frames. */
  function TextStream(texts: seq<seq<Byte>>, masks: seq<Option<seq<Byte>>>): seq<Byte>
    requires |masks| == |texts|
    requires forall m <- masks :: m.Some? ==> |m.value| == 4
  {
    if texts == [] then [] else Encoded(1, texts[0], masks[0]) + TextStream(texts[1..], masks[1..])
  }

  function Messages(texts: seq<seq<Byte>>): seq<Output> {
    seq(|texts|, i requires 0 <= i < |texts| => Message(texts[i]))
  }

  lemma TextStreamHead(texts: seq<seq<Byte>>, masks: seq<Option<seq<Byte>>>)
    requires |masks| == |texts| > 0 && forall m <- masks :: m.Some? ==> |m.value| == 4
    requires forall t <- texts :: |t| <= MAX_SAFE_INTEGER
    ensures var f := ParseFrame(TextStream(texts, masks));
            && f.Frame? && f.fin && f.opcode == 1 && f.payload == texts[0]
            && TextStream(texts, masks)[f.size..] == TextStream(texts[1..], masks[1..])
  {
    var tail := TextStream(texts[1..], masks[1..]);
    EncodeThenParse(1, texts[0], masks[0], tail);
    hide ParseFrame, Encoded;
  }

  lemma NothingDrains(p: Peer)
    requires p.buffer == []
    ensures EndingOf(p.buffer) == Waiting && Drain(p) == p
  {
  }

  lemma {:induction false} TextStreamDrains(p: Peer, texts: seq<seq<Byte>>, masks: seq<Option<seq<Byte>>>)
    requires |masks| == |texts| && forall m <- masks :: m.Some? ==> |m.value| == 4
    requires forall t <- texts :: |t| <= MAX_SAFE_INTEGER
    requires p.buffer == TextStream(texts, masks)
    ensures EndingOf(p.buffer) == Waiting
    ensures Drain(p) == p.(buffer := [], log := p.log + Messages(texts))
    decreases |texts|
  {
    hide ParseFrame, Drain, EndingOf, Encoded;
    if texts == [] {
      NothingDrains(p);
      assert p.log + Messages(texts) == p.log;
    } else {
      TextStreamHead(texts, masks);
      Continues(p);
      hide TextStream;
      var tail := TextStream(texts[1..], masks[1..]);
      TextStreamDrains(p.(buffer := tail, log := p.log + [Message(texts[0])]), texts[1..], masks[1..]);
      assert [Message(texts[0])] + Messages(texts[1..]) == Messages(texts);
      assert p.log + [Message(texts[0])] + Messages(texts[1..]) == p.log + Messages(texts);
    }
  }

  /** What one side sends is what the other receives, however the bytes are cut into packets. */
  lemma SentIsReceived(texts: seq<seq<Byte>>, masks: seq<Option<seq<Byte>>>, chunks: seq<seq<Byte>>)
    requires |masks| == |texts| && forall m <- masks :: m.Some? ==> |m.value| == 4
    requires forall t <- texts :: |t| <= MAX_SAFE_INTEGER
    requires Flatten(chunks) == TextStream(texts, masks)
    ensures FeedAll(FRESH, chunks) == FRESH.(log := Messages(texts))
  {
    var stream := TextStream(texts, masks);
    TextStreamDrains(Peer(stream, false, false, []), texts, masks);
    assert [] + stream == stream && [] + Messages(texts) == Messages(texts);
    StreamingEqualsBatch(stream);
  }

  // ---------------------------------------------------------------- the class

  /** The unmasking loop, in place on the copied payload. */
  method Unmask(payload: array<Byte>, mask: seq<Byte>)
    requires |mask| == 4
    modifies payload
    ensures payload[..] == Masked(old(payload[..]), mask)
  {
    for i := 0 to payload.Length
      invariant forall k :: 0 <= k < i ==> payload[k] == XorByte(old(payload[k]), mask[k % 4])
      invariant forall k :: i <= k < payload.Length ==> payload[k] == old(payload[k])
    {
      payload[i] := XorByte(payload[i], mask[i % 4]);
    }
  }

  /** The decoding half of one pass of the receive loop. */
  method DecodeHead(buffer: seq<Byte>) returns (r: Parse)
    ensures r == ParseFrame(buffer)
  {
    hide FromBigEndian, Masked;
    if |buffer| < 2 { return Incomplete; }
    var first, second := buffer[0], buffer[1];
    var masked := second >= 128;
    var length, offset := second % 128, 2;
    if length == 126 {
      if |buffer| < 4 { return Incomplete; }
      length, offset := FromBigEndian(buffer[2..4]), 4;
    } else if length == 127 {
      if |buffer| < 10 { return Incomplete; }
      var big := FromBigEndian(buffer[2..10]);
      if big > MAX_SAFE_INTEGER { return TooLarge; }
      length, offset := big, 10;
    }
    assert LengthField(buffer) == Known(length, offset);
    var mask := None;
    if masked {
      if |buffer| < offset + 4 { return Incomplete; }
      mask, offset := Some(buffer[offset..offset + 4]), offset + 4;
    }
    if |buffer| < offset + length { return Incomplete; }
    var raw := buffer[offset..offset + length];
    var payload := new Byte[|raw|](i requires 0 <= i < |raw| => raw[i]);
    assert payload[..] == raw;
    if mask.Some? { Unmask(payload, mask.value); }
    r := Frame(first >= 128, first % 16, payload[..], offset + length);
  }

  class WebSocketPeer {
    var buffer: seq<Byte>
    var closed: bool
    var crashed: bool
    /** Everything emitted or written so far. */
    var log: seq<Output>
    /** Bytes of outgoing text frames, in order. */
    var sent: seq<Byte>

    constructor ()
      ensures Value() == FRESH && sent == []
    {
      buffer, closed, crashed, log, sent := [], false, false, [], [];
    }

    function Value(): Peer
      reads this
    {
      Peer(buffer, closed, crashed, log)
    }

    method Send(text: seq<Byte>, writable: bool)
      requires |text| <= MAX_SAFE_INTEGER
      modifies this`sent
      ensures sent == if closed || !writable then old(sent) else old(sent) + TextFrame(text)
    {
      if closed || !writable { return; }
      var header: seq<Byte>;
      if |text| < 126 {
        header := [0x81, |text|];
      } else if |text| <= 0xffff {
        header := [0x81, 126] + ToBigEndian(|text|, 2);
      } else {
        header := [0x81, 127] + ToBigEndian(|text|, 8);
      }
      assert header + text == TextFrame(text);
      sent := sent + (header + text);
    }

    method CloseWith(code: nat)
      modifies this`closed, this`log
      ensures Value() == Close(old(Value()), code)
    {
      if closed { return; }
      log := log + [CloseFrame(code)];
      closed := true;
    }

    /** The "data" handler. */
    method Consume(chunk: seq<Byte>)
      requires !crashed
      modifies this`buffer, this`closed, this`crashed, this`log
      ensures Value() == Feed(old(Value()), chunk)
    {
      hide ParseFrame;
      buffer := buffer + chunk;
      while true
        invariant !crashed
        invariant Drain(Value()) == Feed(old(Value()), chunk)
        decreases |buffer|
      {
        var parsed := DecodeHead(buffer);
        match parsed {
          case Incomplete => return;
          case TooLarge =>
            CloseWith(1009);
            return;
          case Frame(fin, opcode, payload, size) =>
            buffer := buffer[size..];
            if !fin {
              CloseWith(1003);
              return;
            }
            if opcode == 1 {
              log := log + [Message(payload)];
            } else if opcode == 8 {
              CloseWith(1000);
              return;
            } else if opcode == 9 {
              if |payload| >= 126 {
                crashed := true;
                return;
              }
              log := log + [Pong(payload)];
            }
        }
      }
    }
  }
}
