/**
 Bits and bytes of fax images (section 3 of TIFF 6.0): packing of bilevel pixels and
 reversal of strips written least significant bit first. The TIFF reader and writer
 are foreign; a file is its bytes and the directories read from it.
 */
module TiffModel {
  import opened Words

  // ----------------------------------------------------------------- bits

  /** `0x80 >> k`. */
  function Mask(k: nat): bv8
    requires k < 8
  {
    if k == 0 then 0x80 else if k == 1 then 0x40 else if k == 2 then 0x20 else if k == 3 then 0x10
    else if k == 4 then 0x08 else if k == 5 then 0x04 else if k == 6 then 0x02 else 0x01
  }

  predicate Bit(b: bv8, k: nat)
    requires k < 8
  {
    b & Mask(k) != 0
  }

  function ReverseBits(b: bv8): bv8 {
    ((b & 0x80) >> 7) | ((b & 0x40) >> 5) | ((b & 0x20) >> 3) | ((b & 0x10) >> 1)
    | ((b & 0x08) << 1) | ((b & 0x04) << 3) | ((b & 0x02) << 5) | ((b & 0x01) << 7)
  }

  lemma ReverseMovesBits(b: bv8, k: nat)
    requires k < 8
    ensures Bit(ReverseBits(b), k) == Bit(b, 7 - k)
  {
  }

  lemma ReverseTwice(b: bv8)
    ensures ReverseBits(ReverseBits(b)) == b
  {
  }

  lemma SetBit(b: bv8, j: nat, k: nat)
    requires j < 8 && k < 8
    ensures Bit(b | Mask(j), k) == (j == k || Bit(b, k))
  {
  }

  lemma InvertBit(b: bv8, k: nat)
    requires k < 8
    ensures Bit(!b, k) == !Bit(b, k)
  {
  }

  lemma SameBits(a: bv8, b: bv8)
    requires forall k :: 0 <= k < 8 ==> Bit(a, k) == Bit(b, k)
    ensures a == b
  {
    assert Bit(a, 0) == Bit(b, 0) && Bit(a, 1) == Bit(b, 1) && Bit(a, 2) == Bit(b, 2) && Bit(a, 3) == Bit(b, 3);
    assert Bit(a, 4) == Bit(b, 4) && Bit(a, 5) == Bit(b, 5) && Bit(a, 6) == Bit(b, 6) && Bit(a, 7) == Bit(b, 7);
  }

  lemma NoBits(k: nat)
    requires k < 8
    ensures !Bit(0, k)
  {
  }

  // -------------------------------------------------------------- packing

  const BLACK: byte := 0
  const WHITE: byte := 255

  function Stride(width: nat): nat {
    (width + 7) / 8
  }

  lemma WithinStride(x: nat, width: nat)
    requires x < width
    ensures x < Stride(width) * 8
  {
  }

  lemma PlaceOf(i: nat, width: nat, height: nat)
    requires i < width * height
    ensures width > 0 && 0 <= i / width < height && i % width < Stride(width) * 8
  {
    RowOf(i, width, height);
    WithinStride(i % width, width);
  }

  /** Where the pixel of column `x` of row `y` lies, in the pixels and in the bytes. */
  lemma PixelIndex(x: nat, y: nat, width: nat, height: nat)
    requires x < width && y < height
    ensures 0 <= y * width + x < width * height
    ensures (y * width + x) / width == y && (y * width + x) % width == x
  {
    assert y * width + width <= height * width by {
      RowsFit(y, height, width);
    }
    DivisionOf(x, y, width);
  }

  lemma ByteIndex(x: nat, y: nat, width: nat, height: nat)
    requires x < width && y < height
    ensures x / 8 < Stride(width) && 0 <= y * Stride(width) + x / 8 < Stride(width) * height
  {
    RowsFit(y, height, Stride(width));
  }

  lemma RowsFit(y: nat, height: nat, stride: nat)
    requires y < height
    ensures y * stride + stride <= stride * height
  {
    assert (y + 1) * stride <= height * stride by {
      TimesMonotone(y + 1, height, stride);
    }
  }

  lemma DivisionOf(x: nat, y: nat, width: nat)
    requires x < width
    ensures (y * width + x) / width == y && (y * width + x) % width == x
  {
    var n := y * width + x;
    var q, r := n / width, n % width;
    assert n == q * width + r && 0 <= r < width;
    if q > y {
      TimesMonotone(y + 1, q, width);
    } else if q < y {
      TimesMonotone(q + 1, y, width);
    }
  }

  /** Bytes of different rows, or of different eighths of a row, are different bytes. */
  lemma BytesDiffer(a: nat, y: nat, b: nat, z: nat, stride: nat)
    requires a < stride && b < stride && y * stride + a == z * stride + b
    ensures y == z && a == b
  {
    DivisionOf(a, y, stride);
    DivisionOf(b, z, stride);
  }

  /** What the packed rows must be: a bit is set for a black pixel, and none for padding. */
  ghost predicate Packs(bytes: seq<bv8>, pixels: seq<byte>, width: nat, height: nat) {
    && |pixels| == width * height && |bytes| == Stride(width) * height
    && forall x: nat, y: nat {:trigger PackedBit(bytes, width, height, x, y)} ::
      x < Stride(width) * 8 && y < height ==>
        PackedBit(bytes, width, height, x, y) == (x < width && Pixel(pixels, width, height, x, y) == BLACK)
  }

  function Pixel(pixels: seq<byte>, width: nat, height: nat, x: nat, y: nat): byte
    requires |pixels| == width * height && x < width && y < height
  {
    PixelIndex(x, y, width, height);
    pixels[y * width + x]
  }

  predicate PackedBit(bytes: seq<bv8>, width: nat, height: nat, x: nat, y: nat)
    requires |bytes| == Stride(width) * height && x < Stride(width) * 8 && y < height
  {
    RowsFit(y, height, Stride(width));
    Bit(bytes[y * Stride(width) + x / 8], x % 8)
  }

  /** The decoder turns the white-is-zero rows around, bit by bit. */
  function Inverted(bytes: seq<bv8>): (r: seq<bv8>)
    ensures |r| == |bytes| && forall i :: 0 <= i < |bytes| ==> r[i] == !bytes[i]
  {
    seq(|bytes|, i requires 0 <= i < |bytes| => !bytes[i])
  }

  /** One gray pixel for each bit of the rows, padding left out. */
  function Unpacked(bytes: seq<bv8>, width: nat, height: nat): (r: seq<byte>)
    requires |bytes| == Stride(width) * height
    ensures |r| == width * height && forall i: nat :: i < width * height ==> r[i] == UnpackedAt(bytes, width, height, i)
  {
    seq(width * height, i requires 0 <= i < width * height => UnpackedAt(bytes, width, height, i))
  }

  function UnpackedAt(bytes: seq<bv8>, width: nat, height: nat, i: nat): byte
    requires |bytes| == Stride(width) * height && i < width * height
  {
    PlaceOf(i, width, height);
    if PackedBit(bytes, width, height, i % width, i / width) then WHITE else BLACK
  }

  lemma RowOf(i: nat, width: nat, height: nat)
    requires i < width * height
    ensures width > 0 && 0 <= i / width < height && i % width < width && i / width * width + i % width == i
  {
    if i / width >= height {
      TimesMonotone(height, i / width, width);
    }
  }

  predicate Bilevel(pixels: seq<byte>) {
    forall i :: 0 <= i < |pixels| ==> pixels[i] == BLACK || pixels[i] == WHITE
  }

  lemma InvertedBit(bytes: seq<bv8>, width: nat, height: nat, x: nat, y: nat)
    requires |bytes| == Stride(width) * height && x < Stride(width) * 8 && y < height
    ensures PackedBit(Inverted(bytes), width, height, x, y) == !PackedBit(bytes, width, height, x, y)
  {
    RowsFit(y, height, Stride(width));
    InvertBit(bytes[y * Stride(width) + x / 8], x % 8);
  }

  lemma PixelAt(pixels: seq<byte>, width: nat, height: nat, i: nat)
    requires |pixels| == width * height && i < width * height
    ensures width > 0 && i / width < height && i % width < width
    ensures Pixel(pixels, width, height, i % width, i / width) == pixels[i]
  {
    RowOf(i, width, height);
  }

  /** Reading back what was packed: black stays black, everything else is white. */
  lemma PackedPixelReadsBack(bytes: seq<bv8>, pixels: seq<byte>, width: nat, height: nat, i: nat)
    requires Packs(bytes, pixels, width, height) && i < width * height
    ensures UnpackedAt(Inverted(bytes), width, height, i) == if pixels[i] == BLACK then BLACK else WHITE
  {
    PixelAt(pixels, width, height, i);
    PackedAs(bytes, pixels, width, height, i % width, i / width);
    InvertedBit(bytes, width, height, i % width, i / width);
  }

  lemma PackedAs(bytes: seq<bv8>, pixels: seq<byte>, width: nat, height: nat, x: nat, y: nat)
    requires Packs(bytes, pixels, width, height) && x < width && y < height
    ensures PackedBit(bytes, width, height, x, y) == (Pixel(pixels, width, height, x, y) == BLACK)
  {
  }

  /** An image of any size comes back from the fax file exactly when it is bilevel. */
  lemma BilevelImagesRoundTrip(bytes: seq<bv8>, pixels: seq<byte>, width: nat, height: nat)
    requires Packs(bytes, pixels, width, height)
    ensures Unpacked(Inverted(bytes), width, height) == pixels <==> Bilevel(pixels)
  {
    var back := Unpacked(Inverted(bytes), width, height);
    forall i: nat | i < width * height
      ensures back[i] == if pixels[i] == BLACK then BLACK else WHITE
    {
      PackedPixelReadsBack(bytes, pixels, width, height, i);
    }
    assert |back| == |pixels|;
    if Bilevel(pixels) {
      assert forall i: nat :: i < |pixels| ==> back[i] == pixels[i];
    }
  }

  lemma BitAt(bytes: seq<bv8>, pixels: seq<byte>, width: nat, height: nat, i: nat, k: nat)
    requires Packs(bytes, pixels, width, height) && i < |bytes| && k < 8
    ensures Stride(width) > 0 && i / Stride(width) < height
    ensures var x, y := i % Stride(width) * 8 + k, i / Stride(width);
      Bit(bytes[i], k) == (x < width && Pixel(pixels, width, height, x, y) == BLACK)
  {
    RowOf(i, Stride(width), height);
    var x, y := i % Stride(width) * 8 + k, i / Stride(width);
    assert x / 8 == i % Stride(width) && x % 8 == k;
    assert PackedBit(bytes, width, height, x, y) == (x < width && Pixel(pixels, width, height, x, y) == BLACK);
  }

  /** The packed rows are determined by the image, padding included. */
  lemma PackingIsUnique(a: seq<bv8>, b: seq<bv8>, pixels: seq<byte>, width: nat, height: nat)
    requires Packs(a, pixels, width, height) && Packs(b, pixels, width, height)
    ensures a == b
  {
    forall i: nat | i < |a|
      ensures a[i] == b[i]
    {
      forall k: nat | k < 8
        ensures Bit(a[i], k) == Bit(b[i], k)
      {
        BitAt(a, pixels, width, height, i, k);
        BitAt(b, pixels, width, height, i, k);
      }
      SameBits(a[i], b[i]);
    }
  }

  // --------------------------------------------------------------- strips

  const LSB_FIRST := 2
  const SIZE_LIMIT := 134217728
  const PAGE_LIMIT := 250

  /** What the reader makes of one directory of the file. */
  datatype Directory = Directory(fillOrder: nat, offsets: Option<seq<nat>>, lengths: Option<seq<nat>>)

  type Range = (nat, nat)

  /** The byte ranges of a page's strips, or nothing if its strip table is bad. */
  function Ranges(offsets: seq<nat>, lengths: seq<nat>, size: nat): (r: Option<seq<Range>>)
    requires |offsets| == |lengths|
    ensures r.Some? ==> |r.value| == |offsets|
    ensures r.Some? ==> forall i :: 0 <= i < |offsets| ==> r.value[i] == (offsets[i], offsets[i] + lengths[i])
    ensures r.Some? <==> forall i :: 0 <= i < |offsets| ==>
      offsets[i] + lengths[i] < 0x1_0000_0000_0000_0000 && offsets[i] + lengths[i] <= size
    decreases |offsets|
  {
    if offsets == [] then Some([])
    else
      var end := offsets[0] + lengths[0];
      if end >= 0x1_0000_0000_0000_0000 || end > size then None
      else match Ranges(offsets[1..], lengths[1..], size)
      case None => None
      case Some(rest) => Some([(offsets[0], end)] + rest)
  }

  function StripsOf(d: Directory, size: nat): Option<seq<Range>> {
    if d.fillOrder != LSB_FIRST then Some([])
    else if d.offsets.None? || d.lengths.None? || |d.offsets.value| != |d.lengths.value| then None
    else Ranges(d.offsets.value, d.lengths.value, size)
  }

  /** A strip listed again at the same start replaces the earlier one. */
  function Insert(ranges: map<nat, nat>, strips: seq<Range>): map<nat, nat>
    decreases |strips|
  {
    if strips == [] then ranges else Insert(ranges[strips[0].0 := strips[0].1], strips[1..])
  }

  datatype Gathered = Gathered(ranges: map<nat, nat>, pages: nat, damaged: bool)

  /** Directories in file order; `broken` is whether reading on after the last one fails. */
  function Gather(directories: seq<Directory>, i: nat, ranges: map<nat, nat>, broken: bool, size: nat): Gathered
    requires i <= |directories|
    decreases |directories| - i
  {
    if i == |directories| then Gathered(ranges, i, broken)
    else if i == PAGE_LIMIT then Gathered(ranges, i, false)
    else match StripsOf(directories[i], size)
    case None => Gathered(ranges, i, true)
    case Some(strips) => Gather(directories, i + 1, Insert(ranges, strips), broken, size)
  }

  /** The strips listed by the directories read, in order. */
  function Listing(directories: seq<Directory>, i: nat, size: nat): (r: seq<Range>)
    requires i <= |directories|
    decreases |directories| - i
  {
    if i == |directories| || i == PAGE_LIMIT then []
    else match StripsOf(directories[i], size)
    case None => []
    case Some(strips) => strips + Listing(directories, i + 1, size)
  }

  predicate Within(ranges: map<nat, nat>, size: nat) {
    forall s :: s in ranges ==> s <= ranges[s] <= size
  }

  predicate Disjoint(ranges: map<nat, nat>) {
    forall a, b :: a in ranges && b in ranges && a < b ==> ranges[a] <= b
  }

  predicate Covers(ranges: map<nat, nat>, starts: set<nat>, i: nat) {
    exists s :: s in starts && s in ranges && s <= i < ranges[s]
  }

  function Reversed(bytes: seq<bv8>, ranges: map<nat, nat>, starts: set<nat>): (r: seq<bv8>)
    ensures |r| == |bytes|
    ensures forall i :: 0 <= i < |bytes| ==> r[i] == if Covers(ranges, starts, i) then ReverseBits(bytes[i]) else bytes[i]
  {
    seq(|bytes|, i requires 0 <= i < |bytes| => if Covers(ranges, starts, i) then ReverseBits(bytes[i]) else bytes[i])
  }

  datatype Normalized = Bytes(bytes: seq<bv8>, pages: nat, damaged: bool) | TooLarge | Unreadable | Overlapping

  /** The file as the foreign decoder can read it, or why it is refused. */
  ghost function NormalizedOf(file: seq<bv8>, directories: seq<Directory>, broken: bool): Normalized {
    var g := Gather(directories, 0, map[], broken, |file|);
    if |file| > SIZE_LIMIT then TooLarge
    else if directories == [] then Unreadable
    else if !Disjoint(g.ranges) then Overlapping
    else Bytes(Reversed(file, g.ranges, g.ranges.Keys), g.pages, g.damaged)
  }

  lemma {:induction false} InsertStaysWithin(ranges: map<nat, nat>, strips: seq<Range>, size: nat)
    requires Within(ranges, size) && forall i :: 0 <= i < |strips| ==> strips[i].0 <= strips[i].1 <= size
    ensures Within(Insert(ranges, strips), size)
    decreases |strips|
  {
    if strips != [] {
      InsertStaysWithin(ranges[strips[0].0 := strips[0].1], strips[1..], size);
    }
  }

  lemma {:induction false} GatheredStaysWithin(directories: seq<Directory>, i: nat, ranges: map<nat, nat>, broken: bool, size: nat)
    requires i <= |directories| && Within(ranges, size)
    ensures Within(Gather(directories, i, ranges, broken, size).ranges, size)
    decreases |directories| - i
  {
    if i != PAGE_LIMIT && i < |directories| {
      match StripsOf(directories[i], size)
      case None =>
      case Some(strips) =>
        InsertStaysWithin(ranges, strips, size);
        GatheredStaysWithin(directories, i + 1, Insert(ranges, strips), broken, size);
    }
  }

  /** No byte lies in two accepted strips, so each is turned around once. */
  lemma StripsShareNoByte(ranges: map<nat, nat>, a: nat, b: nat, i: nat)
    requires Disjoint(ranges) && a in ranges && b in ranges && a <= i < ranges[a] && b <= i < ranges[b]
    ensures a == b
  {
  }

  /** Turning the same strips around again restores the file. */
  lemma ReversingTwiceRestores(bytes: seq<bv8>, ranges: map<nat, nat>)
    ensures Reversed(Reversed(bytes, ranges, ranges.Keys), ranges, ranges.Keys) == bytes
  {
    forall i | 0 <= i < |bytes|
      ensures ReverseBits(ReverseBits(bytes[i])) == bytes[i]
    {
      ReverseTwice(bytes[i]);
    }
  }

  // ------------------------------------------- strips with the same start

  /** How far strips reach from `from` without a gap, each starting where the last ended. */
  function Reach(ranges: map<nat, nat>, from: nat, size: nat): (end: nat)
    ensures end >= from
    decreases if from <= size then size - from else 0
  {
    if from in ranges && from < ranges[from] <= size then Reach(ranges, ranges[from], size) else from
  }

  lemma {:induction false} ReachIsCovered(ranges: map<nat, nat>, from: nat, size: nat, i: nat)
    requires Within(ranges, size) && from <= i < Reach(ranges, from, size)
    ensures Covers(ranges, ranges.Keys, i)
    decreases if from <= size then size - from else 0
  {
    if i >= ranges[from] {
      ReachIsCovered(ranges, ranges[from], size, i);
    }
  }

  lemma {:induction false} CoveredIsReached(ranges: map<nat, nat>, from: nat, size: nat, end: nat)
    requires Within(ranges, size) && Disjoint(ranges) && (from in ranges || forall s :: s in ranges && s < from ==> ranges[s] <= from)
    requires forall i :: from <= i < end ==> Covers(ranges, ranges.Keys, i)
    ensures Reach(ranges, from, size) >= end
    decreases if from <= size then size - from else 0
  {
    if from < end {
      assert Covers(ranges, ranges.Keys, from);
      var s :| s in ranges && s <= from < ranges[s];
      assert s == from;
      CoveredIsReached(ranges, ranges[from], size, end);
    }
  }

  /** A listed strip is turned around as a whole exactly when the strips finally recorded
      reach from its start to its end; one replaced by a shorter strip may not be. */
  lemma ListedStripIsCoveredIffReached(ranges: map<nat, nat>, size: nat, start: nat, end: nat)
    requires Within(ranges, size) && Disjoint(ranges) && start in ranges && start <= end
    ensures (forall i :: start <= i < end ==> Covers(ranges, ranges.Keys, i)) <==> Reach(ranges, start, size) >= end
  {
    if Reach(ranges, start, size) >= end {
      forall i | start <= i < end
        ensures Covers(ranges, ranges.Keys, i)
      {
        ReachIsCovered(ranges, start, size, i);
      }
    }
    if forall i :: start <= i < end ==> Covers(ranges, ranges.Keys, i) {
      CoveredIsReached(ranges, start, size, end);
    }
  }

  /** No later listing has the same start. */
  predicate IsLast(listing: seq<Range>, k: nat)
    requires k < |listing|
  {
    forall j :: k < j < |listing| ==> listing[j].0 != listing[k].0
  }

  /** A strip that is not empty is recorded from this byte on. */
  predicate Continues(listing: seq<Range>, at: nat) {
    exists k: nat :: k < |listing| && listing[k].0 == at && listing[k].1 > at && IsLast(listing, k)
  }

  /** Between `start` and `end` a strip ends, as last listed, and none continues there. */
  predicate IsCutShort(listing: seq<Range>, start: nat, end: nat) {
    exists k: nat :: k < |listing| && start <= listing[k].0 && listing[k].1 < end && IsLast(listing, k) && !Continues(listing, listing[k].1)
  }

  lemma {:induction false} InsertJoins(ranges: map<nat, nat>, first: seq<Range>, second: seq<Range>)
    ensures Insert(ranges, first + second) == Insert(Insert(ranges, first), second)
    decreases |first|
  {
    if first == [] {
      assert first + second == second;
    } else {
      assert (first + second)[0] == first[0] && (first + second)[1..] == first[1..] + second;
      InsertJoins(ranges[first[0].0 := first[0].1], first[1..], second);
    }
  }

  lemma {:induction false} GatherIsListing(directories: seq<Directory>, i: nat, ranges: map<nat, nat>, broken: bool, size: nat)
    requires i <= |directories|
    ensures Gather(directories, i, ranges, broken, size).ranges == Insert(ranges, Listing(directories, i, size))
    decreases |directories| - i
  {
    if i != PAGE_LIMIT && i < |directories| {
      match StripsOf(directories[i], size)
      case None =>
      case Some(strips) =>
        GatherIsListing(directories, i + 1, Insert(ranges, strips), broken, size);
        InsertJoins(ranges, strips, Listing(directories, i + 1, size));
    }
  }

  lemma {:induction false} ListedStripsAreOrdered(directories: seq<Directory>, i: nat, size: nat)
    requires i <= |directories|
    ensures forall k :: 0 <= k < |Listing(directories, i, size)| ==> Listing(directories, i, size)[k].0 <= Listing(directories, i, size)[k].1
    decreases |directories| - i
  {
    if i != PAGE_LIMIT && i < |directories| && StripsOf(directories[i], size).Some? {
      ListedStripsAreOrdered(directories, i + 1, size);
    }
  }

  /** What is recorded is what was listed last at each start. */
  lemma {:induction false} RecordedIsLast(ranges: map<nat, nat>, listing: seq<Range>, k: nat)
    requires k < |listing| && IsLast(listing, k)
    ensures listing[k].0 in Insert(ranges, listing) && Insert(ranges, listing)[listing[k].0] == listing[k].1
    decreases |listing|
  {
    var rest := listing[1..];
    if k == 0 {
      NotListed(ranges[listing[0].0 := listing[0].1], rest, listing[0].0);
    } else {
      assert rest[k - 1] == listing[k] && IsLast(rest, k - 1);
      RecordedIsLast(ranges[listing[0].0 := listing[0].1], rest, k - 1);
    }
  }

  lemma {:induction false} NotListed(ranges: map<nat, nat>, listing: seq<Range>, start: nat)
    requires forall j :: 0 <= j < |listing| ==> listing[j].0 != start
    ensures start in Insert(ranges, listing) <==> start in ranges
    ensures start in ranges ==> Insert(ranges, listing)[start] == ranges[start]
    decreases |listing|
  {
    if listing != [] {
      NotListed(ranges[listing[0].0 := listing[0].1], listing[1..], start);
    }
  }

  lemma {:induction false} LastListing(listing: seq<Range>, start: nat, k: nat) returns (last: nat)
    requires k < |listing| && listing[k].0 == start
    ensures last < |listing| && listing[last].0 == start && IsLast(listing, last)
    decreases |listing| - k
  {
    if j: nat :| k < j < |listing| && listing[j].0 == start {
      last := LastListing(listing, start, j);
    } else {
      last := k;
    }
  }

  lemma RecordedIsListed(listing: seq<Range>, start: nat) returns (k: nat)
    requires start in Insert(map[], listing)
    ensures k < |listing| && listing[k] == (start, Insert(map[], listing)[start]) && IsLast(listing, k)
  {
    if forall j :: 0 <= j < |listing| ==> listing[j].0 != start {
      NotListed(map[], listing, start);
      assert false;
    } else {
      var j: nat :| j < |listing| && listing[j].0 == start;
      k := LastListing(listing, start, j);
      RecordedIsLast(map[], listing, k);
    }
  }

  /** Where the recorded strips stop reaching, one of them ends and none continues. */
  lemma {:induction false} ReachStopsAtEnd(ranges: map<nat, nat>, from: nat, size: nat) returns (s: nat)
    requires Within(ranges, size) && from in ranges
    ensures s in ranges && from <= s && ranges[s] == Reach(ranges, from, size)
    ensures Reach(ranges, from, size) in ranges ==> ranges[Reach(ranges, from, size)] == Reach(ranges, from, size)
    decreases if from <= size then size - from else 0
  {
    if from < ranges[from] && ranges[from] in ranges {
      s := ReachStopsAtEnd(ranges, ranges[from], size);
    } else {
      s := from;
    }
  }

  lemma StopIsGap(ranges: map<nat, nat>, s: nat)
    requires Disjoint(ranges) && s in ranges && s <= ranges[s]
    requires ranges[s] in ranges ==> ranges[ranges[s]] <= ranges[s]
    ensures !Covers(ranges, ranges.Keys, ranges[s])
  {
  }

  lemma ContinuesIsRecorded(listing: seq<Range>, at: nat)
    ensures var ranges := Insert(map[], listing); Continues(listing, at) <==> at in ranges && ranges[at] > at
  {
    var ranges := Insert(map[], listing);
    if Continues(listing, at) {
      var k: nat :| k < |listing| && listing[k].0 == at && listing[k].1 > at && IsLast(listing, k);
      RecordedIsLast(map[], listing, k);
    }
    if at in ranges && ranges[at] > at {
      var k := RecordedIsListed(listing, at);
    }
  }

  lemma CutIsGap(listing: seq<Range>, size: nat, start: nat, end: nat) returns (i: nat)
    requires var ranges := Insert(map[], listing); Within(ranges, size) && Disjoint(ranges)
    requires IsCutShort(listing, start, end)
    ensures start <= i < end && !Covers(Insert(map[], listing), Insert(map[], listing).Keys, i)
  {
    var ranges := Insert(map[], listing);
    var k: nat :| k < |listing| && start <= listing[k].0 && listing[k].1 < end && IsLast(listing, k) && !Continues(listing, listing[k].1);
    RecordedIsLast(map[], listing, k);
    ContinuesIsRecorded(listing, listing[k].1);
    i := listing[k].1;
    StopIsGap(ranges, listing[k].0);
  }

  lemma GapIsCut(listing: seq<Range>, size: nat, start: nat, end: nat)
    requires var ranges := Insert(map[], listing); Within(ranges, size) && start in ranges && Reach(ranges, start, size) < end
    ensures IsCutShort(listing, start, end)
  {
    var ranges := Insert(map[], listing);
    var s := ReachStopsAtEnd(ranges, start, size);
    var k := RecordedIsListed(listing, s);
    ContinuesIsRecorded(listing, listing[k].1);
  }

  lemma ListingIsCutShortIff(listing: seq<Range>, size: nat, k: nat)
    requires k < |listing| && listing[k].0 <= listing[k].1
    requires var ranges := Insert(map[], listing); Within(ranges, size) && Disjoint(ranges)
    ensures var ranges := Insert(map[], listing);
      (forall i :: listing[k].0 <= i < listing[k].1 ==> Covers(ranges, ranges.Keys, i))
      <==> !IsCutShort(listing, listing[k].0, listing[k].1)
  {
    var ranges, start, end := Insert(map[], listing), listing[k].0, listing[k].1;
    var last := LastListing(listing, start, k);
    RecordedIsLast(map[], listing, last);
    if IsCutShort(listing, start, end) {
      var i := CutIsGap(listing, size, start, end);
    } else {
      if Reach(ranges, start, size) < end {
        GapIsCut(listing, size, start, end);
      }
      ListedStripIsCoveredIffReached(ranges, size, start, end);
    }
  }

  /** In a file that is accepted, a listed strip is turned around as a whole exactly
      unless, somewhere before its end, a strip ends as it was last listed and no other
      is recorded to continue there. */
  lemma ListedStripIsCutShortIff(directories: seq<Directory>, broken: bool, size: nat, k: nat)
    requires k < |Listing(directories, 0, size)|
    requires var ranges := Gather(directories, 0, map[], broken, size).ranges; Disjoint(ranges)
    ensures var listing, ranges := Listing(directories, 0, size), Gather(directories, 0, map[], broken, size).ranges;
      (forall i :: listing[k].0 <= i < listing[k].1 ==> Covers(ranges, ranges.Keys, i))
      <==> !IsCutShort(listing, listing[k].0, listing[k].1)
  {
    GatherIsListing(directories, 0, map[], broken, size);
    GatheredStaysWithin(directories, 0, map[], broken, size);
    ListedStripsAreOrdered(directories, 0, size);
    ListingIsCutShortIff(Listing(directories, 0, size), size, k);
  }

  /** A strip listed once, of a page or of any other, is never cut short. */
  lemma ListedOnceIsWhole(directories: seq<Directory>, broken: bool, size: nat, k: nat)
    requires var listing := Listing(directories, 0, size); k < |listing| && IsLast(listing, k)
    ensures var listing, ranges := Listing(directories, 0, size), Gather(directories, 0, map[], broken, size).ranges;
      forall i :: listing[k].0 <= i < listing[k].1 ==> Covers(ranges, ranges.Keys, i)
  {
    GatherIsListing(directories, 0, map[], broken, size);
    RecordedIsLast(map[], Listing(directories, 0, size), k);
  }

  /** It does happen, in any file long enough: ten bytes are listed behind the header and
      then five at the same place, and the last five stay as they were. */
  lemma ReplacedStripIsCutShort(file: seq<bv8>)
    requires 18 <= |file| <= SIZE_LIMIT
    ensures var page := Directory(LSB_FIRST, Some([8, 8]), Some([10, 5]));
      var r := NormalizedOf(file, [page], false);
      && Listing([page], 0, |file|) == [(8, 18), (8, 13)]
      && r.Bytes? && r.pages == 1 && !r.damaged && |r.bytes| == |file|
      && forall i :: 0 <= i < |file| ==> r.bytes[i] == if 8 <= i < 13 then ReverseBits(file[i]) else file[i]
  {
    var page := Directory(LSB_FIRST, Some([8, 8]), Some([10, 5]));
    var strips := [(8, 18), (8, 13)];
    TwoStrips(|file|);
    assert StripsOf(page, |file|) == Some(strips);
    assert [page][0] == page;
    assert Listing([page], 1, |file|) == [] && strips + [] == strips;
    InsertTwo();
    var g := Gather([page], 0, map[], false, |file|);
    assert Gather([page], 1, map[8 := 13], false, |file|) == Gathered(map[8 := 13], 1, false);
    assert g == Gathered(map[8 := 13], 1, false);
    assert forall i: nat :: Covers(map[8 := 13], {8}, i) <==> 8 <= i < 13;
    assert g.ranges.Keys == {8};
  }

  lemma TwoStrips(size: nat)
    requires 18 <= size
    ensures Ranges([8, 8], [10, 5], size) == Some([(8, 18), (8, 13)])
  {
    var r := Ranges([8, 8], [10, 5], size);
    assert r.Some?;
    assert r.value == [(8, 18), (8, 13)];
  }

  lemma InsertTwo()
    ensures Insert(map[], [(8, 18), (8, 13)]) == map[8 := 13]
  {
    assert [(8, 18), (8, 13)][1..] == [(8, 13)] && [(8, 13)][1..] == [];
    assert Insert(map[8 := 18], [(8, 13)]) == map[8 := 13];
  }
}
