/** Packing pixels into rows, and turning strips around in a file's bytes, in place. */
module Tiff {
  import opened Words
  import opened TiffModel

  /** The rows of a fax page: one bit for each black pixel, first pixel in the highest bit. */
  method PackPage(pixels: seq<byte>, width: nat, height: nat) returns (packed: array<bv8>)
    requires |pixels| == width * height
    ensures fresh(packed) && Packs(packed[..], pixels, width, height)
  {
    var size := Stride(width) * height;
    packed := new bv8[size](_ => 0);
    NothingDone(packed[..], pixels, width, height);
    for y := 0 to height
      invariant packed.Length == size
      invariant RowsDone(packed[..], pixels, width, height, y, 0)
    {
      PackRow(packed, pixels, width, height, y);
    }
    AllDone(packed[..], pixels, width, height);
  }

  lemma NothingDone(bytes: seq<bv8>, pixels: seq<byte>, width: nat, height: nat)
    requires |pixels| == width * height && |bytes| == Stride(width) * height
    requires forall i :: 0 <= i < |bytes| ==> bytes[i] == 0
    ensures RowsDone(bytes, pixels, width, height, 0, 0)
  {
    forall x: nat, y: nat | x < Stride(width) * 8 && y < height
      ensures !PackedBit(bytes, width, height, x, y)
    {
      RowsFit(y, height, Stride(width));
      NoBits(x % 8);
    }
  }

  lemma AllDone(bytes: seq<bv8>, pixels: seq<byte>, width: nat, height: nat)
    requires |pixels| == width * height && |bytes| == Stride(width) * height
    requires RowsDone(bytes, pixels, width, height, height, 0)
    ensures Packs(bytes, pixels, width, height)
  {
  }

  /** Rows before `row`, and the pixels before `column` in it, are packed; the rest is clear. */
  ghost predicate RowsDone(bytes: seq<bv8>, pixels: seq<byte>, width: nat, height: nat, row: nat, column: nat)
    requires |pixels| == width * height && |bytes| == Stride(width) * height
  {
    forall x: nat, y: nat {:trigger PackedBit(bytes, width, height, x, y)} :: x < Stride(width) * 8 && y < height ==>
      PackedBit(bytes, width, height, x, y)
      == (x < width && (y < row || (y == row && x < column)) && Pixel(pixels, width, height, x, y) == BLACK)
  }

  method PackRow(packed: array<bv8>, pixels: seq<byte>, width: nat, height: nat, y: nat)
    requires |pixels| == width * height && packed.Length == Stride(width) * height && y < height
    requires RowsDone(packed[..], pixels, width, height, y, 0)
    modifies packed
    ensures RowsDone(packed[..], pixels, width, height, y + 1, 0)
  {
    for x := 0 to width
      invariant RowsDone(packed[..], pixels, width, height, y, x)
    {
      ByteIndex(x, y, width, height);
      var k := y * Stride(width) + x / 8;
      ghost var before := packed[..];
      if Pixel(pixels, width, height, x, y) == BLACK {
        packed[k] := packed[k] | Mask(x % 8);
        BitSet(before, width, height, x, y, k);
        assert packed[..] == before[k := before[k] | Mask(x % 8)];
      }
    }
  }

  /** Setting one pixel's bit sets no other. */
  lemma BitSet(bytes: seq<bv8>, width: nat, height: nat, x: nat, y: nat, k: nat)
    requires |bytes| == Stride(width) * height && x < width && y < height
    requires k == y * Stride(width) + x / 8 && k < |bytes|
    ensures var after := bytes[k := bytes[k] | Mask(x % 8)];
      forall u: nat, v: nat {:trigger PackedBit(after, width, height, u, v)} :: u < Stride(width) * 8 && v < height ==>
        PackedBit(after, width, height, u, v) == (PackedBit(bytes, width, height, u, v) || (u == x && v == y))
  {
    var after := bytes[k := bytes[k] | Mask(x % 8)];
    forall u: nat, v: nat | u < Stride(width) * 8 && v < height
      ensures PackedBit(after, width, height, u, v) == (PackedBit(bytes, width, height, u, v) || (u == x && v == y))
    {
      OneBitSet(bytes, width, height, x, y, k, u, v);
    }
  }

  lemma SamePlace(x: nat, y: nat, u: nat, v: nat, stride: nat)
    requires x / 8 < stride && u / 8 < stride
    ensures v * stride + u / 8 == y * stride + x / 8 && u % 8 == x % 8 <==> u == x && v == y
  {
    if v * stride + u / 8 == y * stride + x / 8 {
      BytesDiffer(u / 8, v, x / 8, y, stride);
      assert u == u / 8 * 8 + u % 8 && x == x / 8 * 8 + x % 8;
    }
  }

  lemma OneBitSet(bytes: seq<bv8>, width: nat, height: nat, x: nat, y: nat, k: nat, u: nat, v: nat)
    requires |bytes| == Stride(width) * height && x < width && y < height && u < Stride(width) * 8 && v < height
    requires k == y * Stride(width) + x / 8 && k < |bytes|
    ensures PackedBit(bytes[k := bytes[k] | Mask(x % 8)], width, height, u, v)
      == (PackedBit(bytes, width, height, u, v) || (u == x && v == y))
  {
    RowsFit(v, height, Stride(width));
    SamePlace(x, y, u, v, Stride(width));
    SetBit(bytes[k], x % 8, u % 8);
  }

  // --------------------------------------------------------------- strips

  method Collect(directories: seq<Directory>, broken: bool, size: nat) returns (g: Gathered)
    ensures g == Gather(directories, 0, map[], broken, size)
  {
    var ranges: map<nat, nat> := map[];
    var i := 0;
    while i < PAGE_LIMIT && i < |directories|
      invariant i <= PAGE_LIMIT && i <= |directories|
      invariant Gather(directories, i, ranges, broken, size) == Gather(directories, 0, map[], broken, size)
    {
      var strips := StripsOf(directories[i], size);
      if strips.None? {
        return Gathered(ranges, i, true);
      }
      ranges := Record(ranges, strips.value);
      i := i + 1;
    }
    g := Gathered(ranges, i, i == |directories| && broken);
  }

  method Record(before: map<nat, nat>, strips: seq<Range>) returns (ranges: map<nat, nat>)
    ensures ranges == Insert(before, strips)
  {
    ranges := before;
    for i := 0 to |strips|
      invariant Insert(ranges, strips[i..]) == Insert(before, strips)
    {
      assert strips[i..][0] == strips[i] && strips[i..][1..] == strips[i + 1..];
      ranges := ranges[strips[i].0 := strips[i].1];
    }
  }

  lemma {:induction false} LeastOf(all: set<nat>) returns (least: nat)
    requires all != {}
    ensures least in all && forall other :: other in all ==> least <= other
    decreases all
  {
    var first :| first in all;
    least := first;
    var rest := all - {first};
    if rest == {} {
      assert all == {first};
    } else {
      var other := LeastOf(rest);
      if other < first {
        least := other;
      }
      forall x | x in all
        ensures least <= x
      {
        assert x == first || x in rest;
      }
    }
  }

  method ReverseOne(bytes: array<bv8>, start: nat, end: nat)
    requires start <= end <= bytes.Length
    modifies bytes
    ensures forall i :: 0 <= i < bytes.Length ==>
      bytes[i] == if start <= i < end then ReverseBits(old(bytes[i])) else old(bytes[i])
  {
    for i := start to end
      invariant forall k :: 0 <= k < bytes.Length ==>
        bytes[k] == if start <= k < i then ReverseBits(old(bytes[k])) else old(bytes[k])
    {
      bytes[i] := ReverseBits(bytes[i]);
    }
  }

  /** The strips `done` end by `end`, and the others start after every one of them. */
  ghost predicate InOrder(ranges: map<nat, nat>, left: set<nat>, end: nat) {
    && left <= ranges.Keys
    && (forall s :: s in ranges && s !in left ==> ranges[s] <= end)
    && (forall s, t :: s in ranges && s !in left && t in left ==> s < t)
    && (forall s, t :: s in ranges && t in ranges && s !in left && t !in left && s < t ==> ranges[s] <= t)
    && (end == 0 || exists s :: s in ranges && s !in left && ranges[s] == end)
  }

  lemma NextInOrder(ranges: map<nat, nat>, left: set<nat>, end: nat, start: nat, size: nat)
    requires Within(ranges, size) && InOrder(ranges, left, end) && start in left
    requires forall other :: other in left ==> start <= other
    ensures start < end ==> !Disjoint(ranges)
    ensures start >= end ==> InOrder(ranges, left - {start}, ranges[start])
    ensures start >= end ==> forall i :: start <= i < ranges[start] ==> !Covers(ranges, ranges.Keys - left, i)
  {
    if start < end {
      var s :| s in ranges && s !in left && ranges[s] == end;
      assert s < start && ranges[s] > start;
    }
  }

  /** Strips in order of their start; any overlap refuses the file. */
  method ReverseStrips(bytes: array<bv8>, ranges: map<nat, nat>) returns (ok: bool)
    requires Within(ranges, bytes.Length)
    modifies bytes
    ensures ok <==> Disjoint(ranges)
    ensures ok ==> bytes[..] == Reversed(old(bytes[..]), ranges, ranges.Keys)
  {
    var left := ranges.Keys;
    var previousEnd := 0;
    ghost var before := bytes[..];
    assert ranges.Keys - left == {};
    while left != {}
      invariant InOrder(ranges, left, previousEnd)
      invariant bytes[..] == Reversed(before, ranges, ranges.Keys - left)
    {
      var start := Least(left);
      NextInOrder(ranges, left, previousEnd, start, bytes.Length);
      if start < previousEnd {
        return false;
      }
      ghost var mid := bytes[..];
      ReverseOne(bytes, start, ranges[start]);
      OneMoreReversed(before, mid, bytes[..], ranges, ranges.Keys - left, start);
      assert ranges.Keys - (left - {start}) == ranges.Keys - left + {start};
      left, previousEnd := left - {start}, ranges[start];
    }
    assert ranges.Keys - left == ranges.Keys;
    ok := true;
  }

  method Least(all: set<nat>) returns (least: nat)
    requires all != {}
    ensures least in all && forall other :: other in all ==> least <= other
  {
    ghost var some := LeastOf(all);
    least :| least in all && forall other :: other in all ==> least <= other;
  }

  lemma OneMoreReversed(before: seq<bv8>, mid: seq<bv8>, after: seq<bv8>, ranges: map<nat, nat>, done: set<nat>, start: nat)
    requires mid == Reversed(before, ranges, done) && |after| == |before| && start in ranges
    requires forall i :: start <= i < ranges[start] ==> !Covers(ranges, done, i)
    requires forall i :: 0 <= i < |after| ==> after[i] == if start <= i < ranges[start] then ReverseBits(mid[i]) else mid[i]
    ensures after == Reversed(before, ranges, done + {start})
  {
    forall i: nat | i < |before|
      ensures Covers(ranges, done + {start}, i) <==> Covers(ranges, done, i) || start <= i < ranges[start]
    {
      if start <= i < ranges[start] {
        assert start in done + {start};
      }
    }
  }

  /** The file as the foreign decoder can read it, or why it is refused. */
  method Normalize(file: seq<bv8>, directories: seq<Directory>, broken: bool) returns (r: Normalized)
    ensures r.TooLarge? <==> |file| > SIZE_LIMIT
    ensures r.Unreadable? <==> |file| <= SIZE_LIMIT && directories == []
    ensures r == NormalizedOf(file, directories, broken)
  {
    if |file| > SIZE_LIMIT {
      return TooLarge;
    }
    if directories == [] {
      return Unreadable;
    }
    var bytes := new bv8[|file|](i requires 0 <= i < |file| => file[i]);
    assert bytes[..] == file;
    var g := Collect(directories, broken, |file|);
    GatheredStaysWithin(directories, 0, map[], broken, |file|);
    var ok := ReverseStrips(bytes, g.ranges);
    if !ok {
      return Overlapping;
    }
    r := Bytes(bytes[..], g.pages, g.damaged);
  }
}
