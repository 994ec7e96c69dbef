/** Reading a STUN binding response: the address a server saw us under (RFC 5389). */
module Stun {
  import opened Words

  const COOKIE: seq<byte> := [0x21, 0x12, 0xa4, 0x42]

  const MAPPED := 0x0001
  const XOR_MAPPED := 0x0020

  function Word(hi: byte, lo: byte): nat {
    hi * 0x100 + lo
  }

  // ----------------------------------------------------------- attributes

  /** An attribute as it is sent: its kind and length in network order, and its value. */
  datatype Attribute = Attribute(kindHigh: byte, kindLow: byte, lengthHigh: byte, lengthLow: byte, value: seq<byte>)

  function KindOf(a: Attribute): nat {
    Word(a.kindHigh, a.kindLow)
  }

  predicate Sized(a: Attribute) {
    Word(a.lengthHigh, a.lengthLow) == |a.value|
  }

  function Padded(length: nat): (n: nat)
    ensures length <= n < length + 4 && n % 4 == 0
  {
    (length + 3) / 4 * 4
  }

  /** The attribute at `offset`, unless it is cut short. */
  function ReadAt(packet: seq<byte>, offset: nat): (r: Option<Attribute>)
    requires offset + 4 <= |packet|
    ensures r.Some? ==> Sized(r.value) && offset + 4 + |r.value.value| <= |packet|
  {
    var length := Word(packet[offset + 2], packet[offset + 3]);
    if offset + 4 + length > |packet| then None
    else Some(Attribute(packet[offset], packet[offset + 1], packet[offset + 2], packet[offset + 3],
                        packet[offset + 4..offset + 4 + length]))
  }

  /** All attributes from `offset` on, and whether the last was cut short. */
  datatype Listing = Listing(attributes: seq<Attribute>, cut: bool)

  function Attributes(packet: seq<byte>, offset: nat): Listing
    decreases |packet| - offset
  {
    if offset + 4 > |packet| then Listing([], false)
    else match ReadAt(packet, offset)
    case None => Listing([], true)
    case Some(a) =>
      var rest := Attributes(packet, offset + 4 + Padded(|a.value|));
      Listing([a] + rest.attributes, rest.cut)
  }

  // ------------------------------------------------------------ addresses

  function Two(n: nat): nat {
    if n == 0 then 1 else 2 * Two(n - 1)
  }

  /** Exclusive or of `n`-bit numbers, bit by bit. */
  function XorBits(n: nat, a: nat, b: nat): (r: nat)
    requires a < Two(n) && b < Two(n)
    ensures r < Two(n)
    decreases n
  {
    if n == 0 then 0 else (a % 2 + b % 2) % 2 + 2 * XorBits(n - 1, a / 2, b / 2)
  }

  lemma LowestBit(x: nat, bit: nat, high: nat)
    requires bit < 2 && x == bit + 2 * high
    ensures x % 2 == bit && x / 2 == high
  {
  }

  lemma XorBitTwice(a: nat, b: nat)
    requires a < 2 && b < 2
    ensures ((a + b) % 2 + b) % 2 == a
  {
  }

  lemma {:induction false} XorBitsTwice(n: nat, a: nat, b: nat)
    requires a < Two(n) && b < Two(n)
    ensures XorBits(n, XorBits(n, a, b), b) == a
    decreases n
  {
    if n > 0 {
      var bit, high := (a % 2 + b % 2) % 2, XorBits(n - 1, a / 2, b / 2);
      LowestBit(XorBits(n, a, b), bit, high);
      XorBitsTwice(n - 1, a / 2, b / 2);
      XorBitTwice(a % 2, b % 2);
    }
  }

  lemma EightBits()
    ensures Two(8) == 0x100
  {
    assert Two(4) == 16;
  }

  function Xor(a: byte, b: byte): byte {
    EightBits();
    XorBits(8, a, b)
  }

  lemma XorTwice(a: byte, b: byte)
    ensures Xor(Xor(a, b), b) == a
  {
    EightBits();
    XorBitsTwice(8, a, b);
  }

  datatype Ip4 = Ip4(a: byte, b: byte, c: byte, d: byte)

  /** An address as it is sent, in network order. */
  datatype Wire = Wire(ip: Ip4, portHigh: byte, portLow: byte)

  /** A plain address a datagram could be sent to. */
  predicate Usable(a: Wire) {
    && Word(a.portHigh, a.portLow) != 0
    && a.ip != Ip4(0, 0, 0, 0) && a.ip != Ip4(255, 255, 255, 255) && !(224 <= a.ip.a <= 239)
  }

  predicate IsAddress(a: Attribute) {
    (KindOf(a) == MAPPED || KindOf(a) == XOR_MAPPED) && |a.value| == 8 && a.value[1] == 1
  }

  function Masked(a: Wire): Wire {
    Wire(Ip4(Xor(a.ip.a, COOKIE[0]), Xor(a.ip.b, COOKIE[1]), Xor(a.ip.c, COOKIE[2]), Xor(a.ip.d, COOKIE[3])),
            Xor(a.portHigh, COOKIE[0]), Xor(a.portLow, COOKIE[1]))
  }

  lemma MaskedTwice(a: Wire)
    ensures Masked(Masked(a)) == a
  {
    XorTwice(a.portHigh, COOKIE[0]);
    XorTwice(a.portLow, COOKIE[1]);
    XorTwice(a.ip.a, COOKIE[0]);
    XorTwice(a.ip.b, COOKIE[1]);
    XorTwice(a.ip.c, COOKIE[2]);
    XorTwice(a.ip.d, COOKIE[3]);
  }

  function Decoded(a: Attribute): Wire
    requires |a.value| == 8
  {
    var plain := Wire(Ip4(a.value[4], a.value[5], a.value[6], a.value[7]), a.value[2], a.value[3]);
    if KindOf(a) == XOR_MAPPED then Masked(plain) else plain
  }

  /** The first XOR-mapped address, else the last plain one; an unusable one refuses all. */
  function Choose(l: Listing, mapped: Option<Wire>): Option<Wire>
    decreases |l.attributes|
  {
    if l.attributes == [] then (if l.cut then None else mapped)
    else
      var a, rest := l.attributes[0], Listing(l.attributes[1..], l.cut);
      if !IsAddress(a) then Choose(rest, mapped)
      else if !Usable(Decoded(a)) then None
      else if KindOf(a) == XOR_MAPPED then Some(Decoded(a))
      else Choose(rest, Some(Decoded(a)))
  }

  // ------------------------------------------------------------- packets

  predicate IsStun(packet: seq<byte>) {
    |packet| >= 20 && packet[0] < 0x40 && packet[4..8] == COOKIE
  }

  predicate IsSuccessFor(packet: seq<byte>, transaction: seq<byte>) {
    && IsStun(packet) && packet[..2] == [1, 1] && packet[8..20] == transaction
    && Word(packet[2], packet[3]) % 4 == 0 && |packet| == 20 + Word(packet[2], packet[3])
  }

  function Response(packet: seq<byte>, transaction: seq<byte>): Option<Wire> {
    if IsSuccessFor(packet, transaction) then Choose(Attributes(packet, 20), None) else None
  }

  method ParseResponse(packet: seq<byte>, transaction: seq<byte>) returns (mapped: Option<Wire>)
    ensures mapped == Response(packet, transaction)
  {
    if !IsStun(packet) || packet[..2] != [1, 1] || packet[8..20] != transaction {
      return None;
    }
    var length := Word(packet[2], packet[3]);
    if length % 4 != 0 || |packet| != 20 + length {
      return None;
    }
    mapped := WalkAttributes(packet);
  }

  /** One attribute: an address of ours ends the walk or is kept, anything else is passed. */
  method Consider(a: Attribute, before: Option<Wire>, ghost rest: Listing) returns (done: bool, mapped: Option<Wire>)
    ensures Choose(Listing([a] + rest.attributes, rest.cut), before) == if done then mapped else Choose(rest, mapped)
  {
    assert ([a] + rest.attributes)[1..] == rest.attributes;
    if !IsAddress(a) {
      return false, before;
    }
    var address := Decoded(a);
    if !Usable(address) {
      return true, None;
    }
    done, mapped := KindOf(a) == XOR_MAPPED, Some(address);
  }

  lemma AttributesNext(packet: seq<byte>, offset: nat, a: Attribute)
    requires offset + 4 <= |packet| && ReadAt(packet, offset) == Some(a)
    ensures var rest := Attributes(packet, offset + 4 + Padded(|a.value|));
      Attributes(packet, offset) == Listing([a] + rest.attributes, rest.cut)
  {
  }

  /** What the walk from `offset` on comes to. */
  ghost function From(packet: seq<byte>, offset: nat, mapped: Option<Wire>): Option<Wire> {
    Choose(Attributes(packet, offset), mapped)
  }

  lemma FromEnd(packet: seq<byte>, offset: nat, mapped: Option<Wire>)
    requires offset + 4 > |packet|
    ensures From(packet, offset, mapped) == mapped
  {
  }

  /** One attribute decides, or is passed; one that is cut short refuses all. */
  method WalkOne(packet: seq<byte>, offset: nat, before: Option<Wire>) returns (done: bool, mapped: Option<Wire>, next: nat)
    requires offset + 4 <= |packet|
    ensures next > offset
    ensures From(packet, offset, before) == if done then mapped else From(packet, next, mapped)
  {
    var a := ReadAt(packet, offset);
    if a.None? {
      return true, None, offset + 4;
    }
    next := offset + 4 + Padded(|a.value.value|);
    AttributesNext(packet, offset, a.value);
    done, mapped := Consider(a.value, before, Attributes(packet, next));
  }

  /** The attributes in order, until one decides. */
  method WalkAttributes(packet: seq<byte>) returns (mapped: Option<Wire>)
    ensures mapped == From(packet, 20, None)
  {
    var offset := 20;
    mapped := None;
    while offset + 4 <= |packet|
      invariant From(packet, offset, mapped) == From(packet, 20, None)
      decreases |packet| - offset
    {
      var done;
      done, mapped, offset := WalkOne(packet, offset, mapped);
      if done {
        return;
      }
    }
    FromEnd(packet, offset, mapped);
  }

  // ---------------------------------------------------------- properties

  lemma {:induction false} ChosenIsUsable(l: Listing, mapped: Option<Wire>)
    requires mapped.Some? ==> Usable(mapped.value)
    ensures Choose(l, mapped).Some? ==> Usable(Choose(l, mapped).value)
    decreases |l.attributes|
  {
    if l.attributes != [] {
      var a, rest := l.attributes[0], Listing(l.attributes[1..], l.cut);
      ChosenIsUsable(rest, mapped);
      if IsAddress(a) && Usable(Decoded(a)) {
        ChosenIsUsable(rest, Some(Decoded(a)));
      }
    }
  }

  /** Whatever is believed came in a success response to our own request, and is an
      address we could be reached at. */
  lemma OnlyOwnUsableAddresses(packet: seq<byte>, transaction: seq<byte>)
    requires Response(packet, transaction).Some?
    ensures IsSuccessFor(packet, transaction) && Usable(Response(packet, transaction).value)
  {
    ChosenIsUsable(Attributes(packet, 20), None);
  }

  function Head(a: Attribute): (r: seq<byte>)
    ensures |r| == 4
  {
    [a.kindHigh, a.kindLow, a.lengthHigh, a.lengthLow]
  }

  function Padding(a: Attribute): (r: seq<byte>)
    ensures |r| == Padded(|a.value|) - |a.value|
  {
    seq(Padded(|a.value|) - |a.value|, _ => 0)
  }

  function Encoded(a: Attribute): (r: seq<byte>)
    ensures |r| == 4 + Padded(|a.value|)
  {
    Head(a) + a.value + Padding(a)
  }

  function EncodedAll(attributes: seq<Attribute>): seq<byte>
    decreases |attributes|
  {
    if attributes == [] then [] else Encoded(attributes[0]) + EncodedAll(attributes[1..])
  }

  lemma Middle(a: seq<byte>, b: seq<byte>, c: seq<byte>)
    ensures (a + b + c)[|a|..|a| + |b|] == b
  {
  }

  lemma HeadIsRead(before: seq<byte>, head: seq<byte>, rest: seq<byte>)
    requires |head| == 4
    ensures var packet := before + head + rest;
      && packet[|before|] == head[0] && packet[|before| + 1] == head[1]
      && packet[|before| + 2] == head[2] && packet[|before| + 3] == head[3]
  {
  }

  lemma ValueIsRead(before: seq<byte>, head: seq<byte>, value: seq<byte>, padding: seq<byte>, after: seq<byte>)
    requires |head| == 4
    ensures (before + (head + value + padding) + after)[|before| + 4..|before| + 4 + |value|] == value
  {
    Middle(before + head, value, padding + after);
    assert before + (head + value + padding) + after == (before + head) + value + (padding + after);
  }

  /** One attribute, taken apart again. */
  lemma AttributeIsRead(before: seq<byte>, a: Attribute, after: seq<byte>)
    requires Sized(a)
    ensures |before| + 4 <= |before + Encoded(a) + after|
    ensures ReadAt(before + Encoded(a) + after, |before|) == Some(a)
  {
    HeadIsRead(before, Head(a), a.value + Padding(a) + after);
    assert before + Encoded(a) + after == before + Head(a) + (a.value + Padding(a) + after);
    ValueIsRead(before, Head(a), a.value, Padding(a), after);
  }

  predicate AllSized(attributes: seq<Attribute>) {
    forall i :: 0 <= i < |attributes| ==> Sized(attributes[i])
  }

  lemma ThenTheRest(packet: seq<byte>, offset: nat, a: Attribute, rest: seq<Attribute>)
    requires offset + 4 <= |packet| && ReadAt(packet, offset) == Some(a)
    requires Attributes(packet, offset + 4 + Padded(|a.value|)) == Listing(rest, false)
    ensures Attributes(packet, offset) == Listing([a] + rest, false)
  {
  }

  /** Attributes of any kinds and lengths are read back as they were written. */
  lemma {:induction false} AttributesAreReadBack(before: seq<byte>, attributes: seq<Attribute>)
    requires AllSized(attributes)
    ensures Attributes(before + EncodedAll(attributes), |before|) == Listing(attributes, false)
    decreases |attributes|
  {
    if attributes == [] {
      assert before + [] == before;
    } else {
      var a, rest := attributes[0], attributes[1..];
      AttributesAreReadBack(before + Encoded(a), rest);
      EncodedFirst(before, attributes);
      OneMoreIsRead(before + EncodedAll(attributes), before, a, EncodedAll(rest), rest);
      FirstAndRest(attributes);
    }
  }

  lemma FirstAndRest(attributes: seq<Attribute>)
    requires attributes != []
    ensures [attributes[0]] + attributes[1..] == attributes
  {
  }

  /** If the attributes behind it are read back, so are they and `a`. */
  lemma OneMoreIsRead(packet: seq<byte>, before: seq<byte>, a: Attribute, after: seq<byte>, rest: seq<Attribute>)
    requires Sized(a) && packet == before + Encoded(a) + after
    requires Attributes(packet, |before + Encoded(a)|) == Listing(rest, false)
    ensures Attributes(packet, |before|) == Listing([a] + rest, false)
  {
    AttributeIsRead(before, a, after);
    ThenTheRest(packet, |before|, a, rest);
  }

  lemma EncodedFirst(before: seq<byte>, attributes: seq<Attribute>)
    requires attributes != []
    ensures before + EncodedAll(attributes) == before + Encoded(attributes[0]) + EncodedAll(attributes[1..])
  {
  }

  function XorMapped(a: Wire): Attribute {
    var m := Masked(a);
    Attribute(0, 0x20, 0, 8, [0, 1, m.portHigh, m.portLow, m.ip.a, m.ip.b, m.ip.c, m.ip.d])
  }

  lemma XorMappedDecodes(a: Wire)
    ensures IsAddress(XorMapped(a)) && Decoded(XorMapped(a)) == a
  {
    MaskedTwice(a);
  }

  /** Something other than an address, or a usable plain one: the walk goes on. */
  predicate Passed(a: Attribute) {
    !IsAddress(a) || (KindOf(a) == MAPPED && Usable(Decoded(a)))
  }

  predicate AllPassed(attributes: seq<Attribute>) {
    forall i :: 0 <= i < |attributes| ==> Passed(attributes[i])
  }

  /** What is believed if no XOR-mapped address comes: the last plain one. */
  function LastPlain(attributes: seq<Attribute>, mapped: Option<Wire>): Option<Wire>
    requires AllPassed(attributes)
    decreases |attributes|
  {
    if attributes == [] then mapped
    else LastPlain(attributes[1..], if IsAddress(attributes[0]) then Some(Decoded(attributes[0])) else mapped)
  }

  lemma {:induction false} PassedLeavePlain(before: seq<Attribute>, rest: seq<Attribute>, mapped: Option<Wire>)
    requires AllPassed(before)
    ensures Choose(Listing(before + rest, false), mapped) == Choose(Listing(rest, false), LastPlain(before, mapped))
    decreases |before|
  {
    if before == [] {
      assert before + rest == rest;
    } else {
      assert (before + rest)[1..] == before[1..] + rest;
      PassedLeavePlain(before[1..], rest, if IsAddress(before[0]) then Some(Decoded(before[0])) else mapped);
    }
  }

  lemma {:induction false} LastPlainIs(before: seq<Attribute>, x: Attribute, after: seq<Attribute>, mapped: Option<Wire>)
    requires AllPassed(before + [x] + after) && IsAddress(x) && forall i :: 0 <= i < |after| ==> !IsAddress(after[i])
    ensures LastPlain(before + [x] + after, mapped) == Some(Decoded(x))
    decreases |before|
  {
    FirstOfMany(before, x, after);
    if before == [] {
      assert ([x] + after)[1..] == after;
      NoOtherPlain(after, Some(Decoded(x)));
    } else {
      var first := before[0];
      assert (before + [x] + after)[0] == first && (before + [x] + after)[1..] == before[1..] + [x] + after;
      LastPlainIs(before[1..], x, after, if IsAddress(first) then Some(Decoded(first)) else mapped);
    }
  }

  lemma {:induction false} NoOtherPlain(attributes: seq<Attribute>, mapped: Option<Wire>)
    requires AllPassed(attributes) && forall i :: 0 <= i < |attributes| ==> !IsAddress(attributes[i])
    ensures LastPlain(attributes, mapped) == mapped
    decreases |attributes|
  {
    if attributes != [] {
      NoOtherPlain(attributes[1..], mapped);
    }
  }

  lemma LastPlainIsChosen(before: seq<Attribute>, x: Attribute, after: seq<Attribute>)
    requires AllPassed(before) && Passed(x) && IsAddress(x) && forall i :: 0 <= i < |after| ==> !IsAddress(after[i])
    ensures Choose(Listing(before + [x] + after, false), None) == Some(Decoded(x))
  {
    var all := before + [x] + after;
    LastPlainIs(before, x, after, None);
    PassedLeavePlain(all, [], None);
    assert all + [] == all;
  }

  function PlainMapped(a: Wire): Attribute {
    Attribute(0, 1, 0, 8, [0, 1, a.portHigh, a.portLow, a.ip.a, a.ip.b, a.ip.c, a.ip.d])
  }

  lemma PlainMappedDecodes(a: Wire)
    ensures Sized(PlainMapped(a)) && IsAddress(PlainMapped(a)) && Decoded(PlainMapped(a)) == a && KindOf(PlainMapped(a)) == MAPPED
  {
  }

  lemma SizedTogether(before: seq<Attribute>, x: Attribute, after: seq<Attribute>)
    requires AllSized(before) && Sized(x) && AllSized(after)
    ensures AllSized(before + [x] + after)
  {
  }

  lemma LastPlainIsRead(header: seq<byte>, transaction: seq<byte>, before: seq<Attribute>, x: Attribute, after: seq<Attribute>)
    requires |header| == 20 && AllSized(before + [x] + after) && Passed(x) && IsAddress(x)
    requires AllPassed(before) && forall i :: 0 <= i < |after| ==> !IsAddress(after[i])
    requires IsSuccessFor(header + EncodedAll(before + [x] + after), transaction)
    ensures Response(header + EncodedAll(before + [x] + after), transaction) == Some(Decoded(x))
  {
    AttributesAreReadBack(header, before + [x] + after);
    LastPlainIsChosen(before, x, after);
  }

  /** From a server that sends no XOR-mapped address the last plain one is read back,
      whatever other attributes there are. */
  lemma PlainAddressIsReadBack(header: seq<byte>, transaction: seq<byte>, before: seq<Attribute>, a: Wire, after: seq<Attribute>)
    requires Usable(a) && |header| == 20 && AllSized(before) && AllSized(after)
    requires AllPassed(before) && forall i :: 0 <= i < |after| ==> !IsAddress(after[i])
    requires IsSuccessFor(header + EncodedAll(before + [PlainMapped(a)] + after), transaction)
    ensures Response(header + EncodedAll(before + [PlainMapped(a)] + after), transaction) == Some(a)
  {
    PlainMappedDecodes(a);
    SizedTogether(before, PlainMapped(a), after);
    LastPlainIsRead(header, transaction, before, PlainMapped(a), after);
  }

  /** One address that cannot be used refuses the whole response. */
  lemma UnusableAddressRefuses(header: seq<byte>, transaction: seq<byte>, before: seq<Attribute>, x: Attribute, after: seq<Attribute>)
    requires |header| == 20 && AllSized(before + [x] + after) && AllPassed(before) && IsAddress(x) && !Usable(Decoded(x))
    ensures Response(header + EncodedAll(before + [x] + after), transaction) == None
  {
    AttributesAreReadBack(header, before + [x] + after);
    PassedLeavePlain(before, [x] + after, None);
    Associates(before, x, after);
    FirstDecides(x, after, LastPlain(before, None));
  }

  lemma FirstOfMany<T>(before: seq<T>, x: T, after: seq<T>)
    ensures before == [] ==> before + [x] + after == [x] + after
    ensures before != [] ==> before + [x] + after == [before[0]] + (before[1..] + [x] + after)
  {
  }

  lemma Associates<T>(before: seq<T>, x: T, after: seq<T>)
    ensures before + [x] + after == before + ([x] + after)
  {
  }

  lemma FirstDecides(x: Attribute, after: seq<Attribute>, mapped: Option<Wire>)
    requires IsAddress(x) && (KindOf(x) == XOR_MAPPED || !Usable(Decoded(x)))
    ensures Choose(Listing([x] + after, false), mapped) == if Usable(Decoded(x)) then Some(Decoded(x)) else None
  {
  }

  lemma FirstMappedIsChosen(before: seq<Attribute>, x: Attribute, a: Wire, after: seq<Attribute>)
    requires IsAddress(x) && KindOf(x) == XOR_MAPPED && Decoded(x) == a && Usable(a)
    requires AllPassed(before)
    ensures Choose(Listing(before + [x] + after, false), None) == Some(a)
  {
    PassedLeavePlain(before, [x] + after, None);
    Associates(before, x, after);
    FirstDecides(x, after, LastPlain(before, None));
  }

  /** A server's XOR-mapped address is read back from behind any other attributes and usable
      plain addresses, whatever attributes follow it. */
  lemma MappedAddressIsReadBack(header: seq<byte>, transaction: seq<byte>, before: seq<Attribute>, a: Wire, after: seq<Attribute>)
    requires Usable(a) && |header| == 20 && AllSized(before) && AllSized(after)
    requires AllPassed(before)
    requires IsSuccessFor(header + EncodedAll(before + [XorMapped(a)] + after), transaction)
    ensures Response(header + EncodedAll(before + [XorMapped(a)] + after), transaction) == Some(a)
  {
    AttributesAreReadBack(header, before + [XorMapped(a)] + after);
    XorMappedDecodes(a);
    FirstMappedIsChosen(before, XorMapped(a), a, after);
  }
}
