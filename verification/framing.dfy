/** Descriptor framing (shared/Helpers.cpp): a base 128 varint with the envelope size at the start of
    an 8-byte header, the envelope right behind the varint, all in a 1024-byte buffer. */
module Framing {

  type byte = x: int | 0 <= x < 256

  const BUFFER: nat := 1024
  const HEADER: nat := 8
  const WORD: nat := 0x1_0000_0000

  // ---- base 128 varints (Protocol Buffers encoding, "Base 128 Varints") ----

  function Varint(n: nat): seq<byte> {
    if n < 128 then [n] else [n % 128 + 128] + Varint(n / 128)
  }

  /** Number of bytes the varint at the start of `s` takes; a varint that does not end takes all. */
  function VarintLength(s: seq<byte>): nat {
    if s == [] then 0 else if s[0] < 128 then 1 else 1 + VarintLength(s[1..])
  }

  /** Its value, seven bits a byte, least significant first. */
  function VarintValue(s: seq<byte>): nat {
    if s == [] then 0 else if s[0] < 128 then s[0] else s[0] - 128 + 128 * VarintValue(s[1..])
  }

  lemma {:induction false} VarintRoundTrip(n: nat, rest: seq<byte>)
    ensures VarintValue(Varint(n) + rest) == n
    ensures VarintLength(Varint(n) + rest) == |Varint(n)|
    decreases n
  {
    var s := Varint(n) + rest;
    if n >= 128 {
      VarintRoundTrip(n / 128, rest);
      assert s[0] == n % 128 + 128 && s[1..] == Varint(n / 128) + rest;
    }
  }

  function Power(k: nat): nat
    ensures Power(k) > 0
  {
    if k == 0 then 1 else 128 * Power(k - 1)
  }

  /** Byte `k` carries the seven bits from 7 * k on, and its top bit tells whether another byte follows. */
  lemma {:induction false} VarintBytes(n: nat, k: nat)
    requires k < |Varint(n)|
    ensures Varint(n)[k] == n / Power(k) % 128 + if k == |Varint(n)| - 1 then 0 else 128
    ensures k == |Varint(n)| - 1 ==> n / Power(k) < 128
    decreases n
  {
    if n >= 128 && k > 0 {
      assert Varint(n)[k] == Varint(n / 128)[k - 1];
      VarintBytes(n / 128, k - 1);
      DividesTwice(n, Power(k - 1));
    }
  }

  lemma DividesTwice(n: nat, m: nat)
    requires m > 0
    ensures n / 128 / m == n / (128 * m)
  {
    var q, r := n / (128 * m), n % (128 * m);
    assert n == 128 * (m * q) + r;
    assert n / 128 == m * q + r / 128;
    assert r / 128 < m;
    Quotient(n / 128, m, q, r / 128);
  }

  lemma Quotient(n: nat, m: nat, q: nat, r: nat)
    requires m > 0 && n == m * q + r && r < m
    ensures n / m == q
  {
    var p := n / m;
    assert n == m * p + n % m;
    assert m * (q - p) == n % m - r;
    if q > p {
      Grows(m, q - p);
    } else if p > q {
      Grows(m, p - q);
    }
  }

  lemma Grows(m: nat, d: nat)
    requires d >= 1
    ensures m * d >= m
  {
  }

  lemma VarintSize(n: nat)
    requires n <= BUFFER
    ensures |Varint(n)| == if n < 128 then 1 else 2
  {
    if n >= 128 {
      assert n / 128 < 128;
    }
  }

  // ---- what is sent and what is read ----

  /** `Short` is a send the socket did not take completely, `PastBuffer` a send window that reaches past
      the end of the buffer. */
  datatype SendResult = Refused | Frame(bytes: seq<byte>) | Short | PastBuffer

  function Zeros(n: nat): seq<byte> {
    seq(n, _ => 0)
  }

  /** The frame of an envelope: its size, the envelope, and zeros up to size + 8 bytes. */
  function FrameOf(envelope: seq<byte>): seq<byte>
    requires |envelope| <= BUFFER
  {
    VarintSize(|envelope|);
    Varint(|envelope|) + envelope + Zeros(HEADER - |Varint(|envelope|)|)
  }

  /** `accepted` is the number of bytes the socket takes. */
  function Sending(envelope: seq<byte>, accepted: nat): SendResult {
    if |envelope| > BUFFER || |Varint(|envelope|)| + |envelope| > BUFFER then Refused
    else if |envelope| + HEADER > BUFFER then PastBuffer
    else if accepted != |envelope| + HEADER then Short
    else Frame(FrameOf(envelope))
  }

  /** Copies bytes into the buffer from `at` on. */
  method Put(buffer: array<byte>, at: nat, bytes: seq<byte>)
    requires at + |bytes| <= buffer.Length
    modifies buffer
    ensures buffer[..] == old(buffer[..at]) + bytes + old(buffer[at + |bytes|..])
  {
    var k := 0;
    while k < |bytes|
      invariant k <= |bytes|
      invariant forall j | 0 <= j < buffer.Length :: buffer[j] == if at <= j < at + k then bytes[j - at] else old(buffer[j])
    {
      buffer[at + k] := bytes[k];
      k := k + 1;
    }
  }

  method SendControlDescriptor(envelope: seq<byte>, accepted: nat) returns (result: SendResult)
    ensures result == Sending(envelope, accepted)
  {
    var buffer := new byte[BUFFER](_ => 0);
    var size := |envelope|;
    if size > BUFFER {
      return Refused;
    }
    var prefix := Varint(size);
    VarintSize(size);
    Put(buffer, 0, prefix);
    assert buffer[..] == prefix + Zeros(BUFFER - |prefix|);
    if |prefix| + size > BUFFER {
      return Refused; // the stream is full, serializing fails
    }
    Put(buffer, |prefix|, envelope);
    assert buffer[..] == prefix + envelope + Zeros(BUFFER - |prefix| - size);
    if size + HEADER > BUFFER {
      return PastBuffer;
    }
    if accepted != size + HEADER {
      return Short;
    }
    assert buffer[..size + HEADER] == buffer[..][..size + HEADER] == FrameOf(envelope);
    return Frame(buffer[..size + HEADER]);
  }

  /** `rest` is what stays unread in the stream. */
  datatype ReadResult = Failed | Parsed(envelope: seq<byte>, rest: seq<byte>)

  /** The header as the varint reader sees it: eight received bytes in a zeroed buffer. */
  function Header(stream: seq<byte>): seq<byte>
    requires |stream| >= HEADER
  {
    stream[..HEADER] + Zeros(BUFFER - HEADER)
  }

  /** `holds` tells whether a window parses as an envelope around a descriptor message. */
  function Reading(stream: seq<byte>, holds: seq<byte> -> bool): ReadResult {
    if |stream| < HEADER then Failed
    else
      var size := VarintValue(Header(stream)) % WORD;
      var start := VarintLength(Header(stream));
      if size > BUFFER - HEADER || |stream| < HEADER + size then Failed
      else
        var buffer := stream[..HEADER + size] + Zeros(BUFFER - HEADER - size);
        HeaderEnds(stream[..HEADER], BUFFER - HEADER);
        var envelope := buffer[start..if start + size <= BUFFER then start + size else BUFFER];
        if holds(envelope) then Parsed(envelope, stream[HEADER + size..]) else Failed
  }

  /** The varint of any header ends within nine bytes: the zero behind the eight received ends it. */
  lemma {:induction false} HeaderEnds(s: seq<byte>, zeros: nat)
    requires zeros >= 1
    ensures 1 <= VarintLength(s + Zeros(zeros)) <= |s| + 1
  {
    if s == [] {
      assert s + Zeros(zeros) == Zeros(zeros);
    } else {
      assert (s + Zeros(zeros))[1..] == s[1..] + Zeros(zeros);
      HeaderEnds(s[1..], zeros);
    }
  }

  /** The two receives and the parse window; every index stays inside the buffer, whatever the
      first eight bytes are. */
  method ReadControlDescriptor(stream: seq<byte>, holds: seq<byte> -> bool) returns (result: ReadResult)
    ensures result == Reading(stream, holds)
  {
    var buffer := new byte[BUFFER](_ => 0);
    if |stream| < HEADER {
      return Failed;
    }
    Put(buffer, 0, stream[..HEADER]);
    assert buffer[..] == Header(stream);
    var size, start := VarintValue(buffer[..]) % WORD, VarintLength(buffer[..]);
    HeaderEnds(stream[..HEADER], BUFFER - HEADER);
    if size > BUFFER - HEADER {
      return Failed;
    }
    if |stream| < HEADER + size {
      return Failed;
    }
    Put(buffer, HEADER, stream[HEADER..HEADER + size]);
    assert buffer[..] == stream[..HEADER + size] + Zeros(BUFFER - HEADER - size);
    var end := if start + size <= BUFFER then start + size else BUFFER;
    if !holds(buffer[start..end]) {
      return Failed;
    }
    return Parsed(buffer[start..end], stream[HEADER + size..]);
  }

  // ---- the two ends agree ----

  /** For every envelope the reader can take, whatever follows in the stream: the reader's two
      receives consume exactly the frame, the parsed window is exactly the envelope, and the next
      envelope starts aligned. */
  lemma DescriptorRoundTrip(envelope: seq<byte>, rest: seq<byte>, holds: seq<byte> -> bool)
    requires |envelope| <= BUFFER - HEADER && holds(envelope)
    ensures |FrameOf(envelope)| == |envelope| + HEADER
    ensures Sending(envelope, |FrameOf(envelope)|) == Frame(FrameOf(envelope))
    ensures Reading(FrameOf(envelope) + rest, holds) == Parsed(envelope, rest)
  {
    var size := |envelope|;
    var prefix := Varint(size);
    VarintSize(size);
    var stream := FrameOf(envelope) + rest;
    var behind := Header(stream)[|prefix|..];
    assert Header(stream) == prefix + behind;
    VarintRoundTrip(size, behind);
    var buffer := stream[..HEADER + size] + Zeros(BUFFER - HEADER - size);
    assert stream[..HEADER + size] == FrameOf(envelope);
    assert buffer[|prefix|..|prefix| + size] == envelope;
    assert stream[HEADER + size..] == rest;
  }

  /** The sender's own limit is looser than the reader's: it refuses from 1023 bytes on, the reader
      takes 1016, and the window sent for the sizes in between reaches past the buffer. */
  lemma SendingLimits(envelope: seq<byte>, accepted: nat)
    ensures Sending(envelope, accepted).Frame? <==> |envelope| <= 1016 && accepted == |envelope| + HEADER
    ensures Sending(envelope, accepted).Short? <==> |envelope| <= 1016 && accepted != |envelope| + HEADER
    ensures Sending(envelope, accepted).PastBuffer? <==> 1017 <= |envelope| <= 1022
    ensures Sending(envelope, accepted).Refused? <==> |envelope| >= 1023
  {
    if |envelope| <= BUFFER {
      VarintSize(|envelope|);
    }
  }

  /** Whatever the first eight bytes are, a descriptor that is read leaves the second receive inside
      the buffer, and the parsed window reaches at most one byte, a zero, past what was received. */
  lemma ReadingStaysInBounds(stream: seq<byte>, holds: seq<byte> -> bool)
    requires Reading(stream, holds).Parsed?
    ensures var result, start := Reading(stream, holds), VarintLength(Header(stream));
            var received := |stream| - |result.rest|;
            && HEADER <= received <= BUFFER && 1 <= start <= HEADER + 1
            && |result.envelope| <= received - HEADER && start + |result.envelope| <= received + 1
            && start + |result.envelope| <= BUFFER
            && result.envelope == (stream[..received] + Zeros(BUFFER - received))[start..start + |result.envelope|]
  {
    HeaderEnds(stream[..HEADER], BUFFER - HEADER);
  }
}
