/** RTP packets on the wire (RFC 3550, section 5.1): the reader and the writer. */
module RtpPackets {
  import opened Words
  import opened Media

  datatype Rtp = Rtp(payloadType: byte, sequence: u16, timestamp: u32, ssrc: u32, payload: seq<byte>)

  function Read16(bytes: seq<byte>, at: nat): u16
    requires at + 2 <= |bytes|
  {
    var high: int := bytes[at];
    high * 0x100 + bytes[at + 1]
  }

  function Read32(bytes: seq<byte>, at: nat): u32
    requires at + 4 <= |bytes|
  {
    var high: int := Read16(bytes, at);
    high * 0x1_0000 + Read16(bytes, at + 2)
  }

  function Write16(x: u16): seq<byte> {
    [x / 0x100, x % 0x100]
  }

  function Write32(x: u32): seq<byte> {
    Write16(x / 0x1_0000) + Write16(x % 0x1_0000)
  }

  /** Where the payload starts: after the sources and the optional extension. */
  function PayloadStart(packet: seq<byte>): Option<nat>
    requires |packet| >= 12
  {
    var fixed := 12 + packet[0] % 16 * 4;
    if packet[0] / 16 % 2 == 0 then Some(fixed)
    else if fixed + 4 > |packet| then None
    else Some(fixed + 4 + Read16(packet, fixed + 2) * 4)
  }

  /** Where it ends: before the padding counted by the last byte. */
  function PayloadEnd(packet: seq<byte>): Option<nat>
    requires |packet| >= 12
  {
    if packet[0] / 32 % 2 == 0 then Some(|packet|)
    else
      var padding := packet[|packet| - 1];
      if padding == 0 || padding > |packet| then None else Some(|packet| - padding)
  }

  function Parse(packet: seq<byte>): (r: Option<Rtp>)
    ensures r.Some? ==> |packet| >= 12 && |r.value.payload| <= |packet| - 12
  {
    if |packet| < 12 || packet[0] / 64 != 2 then None else
    var start, end := PayloadStart(packet), PayloadEnd(packet);
    if start.None? || end.None? || start.value > end.value then None
    else Some(Rtp(packet[1] % 128, Read16(packet, 2), Read32(packet, 4), Read32(packet, 8),
                  packet[start.value..end.value]))
  }

  /** A packet as the sender writes it: no padding, no extension, no sources. */
  function Plain(rtp: Rtp): seq<byte> {
    [0x80, rtp.payloadType] + Write16(rtp.sequence) + Write32(rtp.timestamp) + Write32(rtp.ssrc) + rtp.payload
  }

  lemma ReadWrite16(before: seq<byte>, x: u16, after: seq<byte>)
    ensures Read16(before + Write16(x) + after, |before|) == x
  {
    var all := before + Write16(x) + after;
    assert all[|before|] == x / 0x100 && all[|before| + 1] == x % 0x100;
  }

  lemma ReadWrite32(before: seq<byte>, x: u32, after: seq<byte>)
    ensures Read32(before + Write32(x) + after, |before|) == x
  {
    var all := before + Write32(x) + after;
    var high, low := Write16(x / 0x1_0000), Write16(x % 0x1_0000);
    assert all == before + high + (low + after);
    ReadWrite16(before, x / 0x1_0000, low + after);
    assert all == (before + high) + low + after;
    ReadWrite16(before + high, x % 0x1_0000, after);
  }

  // ----------------------------------------- packets of other implementations

  /** What a sender may add to a packet: contributing sources, a header extension and
      padding, whose last byte counts it. */
  datatype Extras = Extras(marker: bool, sources: seq<u32>, profile: Option<u16>, words: seq<u32>, padding: seq<byte>)

  predicate WellFormed(x: Extras) {
    && |x.sources| <= 15 && |x.words| < 0x1_0000 && (x.profile.None? ==> x.words == [])
    && (x.padding != [] ==> x.padding[|x.padding| - 1] == |x.padding|)
  }

  function Words32(words: seq<u32>): (r: seq<byte>)
    ensures |r| == 4 * |words|
  {
    if words == [] then [] else Write32(words[0]) + Words32(words[1..])
  }

  function FirstByte(x: Extras): byte
    requires WellFormed(x)
  {
    0x80 + (if x.padding != [] then 0x20 else 0) + (if x.profile.Some? then 0x10 else 0) + |x.sources|
  }

  function Fixed(rtp: Rtp, x: Extras): (r: seq<byte>)
    requires rtp.payloadType < 128 && WellFormed(x)
    ensures |r| == 12
  {
    [FirstByte(x), rtp.payloadType + if x.marker then 128 else 0]
    + Write16(rtp.sequence) + Write32(rtp.timestamp) + Write32(rtp.ssrc)
  }

  function Extension(x: Extras): (r: seq<byte>)
    requires WellFormed(x)
    ensures |r| == if x.profile.Some? then 4 + 4 * |x.words| else 0
  {
    if x.profile.Some? then Write16(x.profile.value) + Write16(|x.words|) + Words32(x.words) else []
  }

  /** The packet as section 5.1 and 5.3.1 of RFC 3550 lay it out. */
  function Written(rtp: Rtp, x: Extras): seq<byte>
    requires rtp.payloadType < 128 && WellFormed(x)
  {
    Fixed(rtp, x) + Words32(x.sources) + Extension(x) + rtp.payload + x.padding
  }

  lemma FixedIsRead(rtp: Rtp, x: Extras, rest: seq<byte>)
    requires rtp.payloadType < 128 && WellFormed(x)
    ensures var packet := Fixed(rtp, x) + rest;
      && packet[0] == FirstByte(x) && packet[1] % 128 == rtp.payloadType
      && Read16(packet, 2) == rtp.sequence && Read32(packet, 4) == rtp.timestamp && Read32(packet, 8) == rtp.ssrc
  {
    var packet := Fixed(rtp, x) + rest;
    var head := [FirstByte(x), rtp.payloadType + if x.marker then 128 else 0];
    var s, t, c := Write16(rtp.sequence), Write32(rtp.timestamp), Write32(rtp.ssrc);
    assert packet == head + s + (t + c + rest);
    ReadWrite16(head, rtp.sequence, t + c + rest);
    assert packet == (head + s) + t + (c + rest);
    ReadWrite32(head + s, rtp.timestamp, c + rest);
    assert packet == (head + s + t) + c + rest;
    ReadWrite32(head + s + t, rtp.ssrc, rest);
  }

  lemma FirstByteIsRead(x: Extras)
    requires WellFormed(x)
    ensures var b := FirstByte(x);
      && b / 64 == 2 && b % 16 == |x.sources|
      && (b / 16 % 2 == 0 <==> x.profile.None?) && (b / 32 % 2 == 0 <==> x.padding == [])
  {
  }

  lemma ExtensionIsRead(before: seq<byte>, x: Extras, after: seq<byte>)
    requires WellFormed(x) && x.profile.Some?
    ensures Read16(before + Extension(x) + after, |before| + 2) == |x.words|
  {
    var profile, count, words := Write16(x.profile.value), Write16(|x.words|), Words32(x.words);
    assert before + Extension(x) + after == (before + profile) + count + (words + after);
    ReadWrite16(before + profile, |x.words|, words + after);
  }

  lemma PayloadIsRead(front: seq<byte>, payload: seq<byte>, padding: seq<byte>)
    ensures (front + payload + padding)[|front|..|front + payload + padding| - |padding|] == payload
  {
  }

  lemma PaddingIsRead(front: seq<byte>, padding: seq<byte>)
    requires padding != []
    ensures (front + padding)[|front + padding| - 1] == padding[|padding| - 1]
  {
  }

  lemma WrittenStart(rtp: Rtp, x: Extras)
    requires rtp.payloadType < 128 && WellFormed(x)
    ensures PayloadStart(Written(rtp, x)) == Some(12 + 4 * |x.sources| + |Extension(x)|)
  {
    var packet := Written(rtp, x);
    var fixed, sources := Fixed(rtp, x), Words32(x.sources);
    FirstByteIsRead(x);
    FixedIsRead(rtp, x, sources + Extension(x) + rtp.payload + x.padding);
    assert packet == fixed + (sources + Extension(x) + rtp.payload + x.padding);
    if x.profile.Some? {
      ExtensionIsRead(fixed + sources, x, rtp.payload + x.padding);
      assert packet == (fixed + sources) + Extension(x) + (rtp.payload + x.padding);
    }
  }

  lemma WrittenEnd(rtp: Rtp, x: Extras)
    requires rtp.payloadType < 128 && WellFormed(x)
    ensures PayloadEnd(Written(rtp, x)) == Some(|Written(rtp, x)| - |x.padding|)
  {
    var packet := Written(rtp, x);
    FirstByteIsRead(x);
    if x.padding != [] {
      PaddingIsRead(Fixed(rtp, x) + Words32(x.sources) + Extension(x) + rtp.payload, x.padding);
    }
  }

  /** Whatever sources, extension, marker and padding another sender adds, the reader
      recovers exactly the packet. */
  lemma ParseWritten(rtp: Rtp, x: Extras)
    requires rtp.payloadType < 128 && WellFormed(x)
    ensures Parse(Written(rtp, x)) == Some(rtp)
  {
    var packet := Written(rtp, x);
    var front := Fixed(rtp, x) + Words32(x.sources) + Extension(x);
    FirstByteIsRead(x);
    FixedIsRead(rtp, x, Words32(x.sources) + Extension(x) + rtp.payload + x.padding);
    assert packet == Fixed(rtp, x) + (Words32(x.sources) + Extension(x) + rtp.payload + x.padding);
    WrittenStart(rtp, x);
    WrittenEnd(rtp, x);
    PayloadIsRead(front, rtp.payload, x.padding);
  }

  /** The receiver reads back exactly what the sender wrote. */
  lemma ParsePlain(rtp: Rtp)
    requires rtp.payloadType < 128
    ensures Parse(Plain(rtp)) == Some(rtp)
  {
    var none := Extras(false, [], None, [], []);
    ParseWritten(rtp, none);
    assert Plain(rtp) == Written(rtp, none);
  }
}
