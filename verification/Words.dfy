/** Fixed-width integers as the receive path uses them, and the usual option type. */
module Words {

  datatype Option<+T> = None | Some(value: T)

  type byte = x: int | 0 <= x < 0x100
  type u16 = x: int | 0 <= x < 0x1_0000
  type u32 = x: int | 0 <= x < 0x1_0000_0000
  type u128 = x: int | 0 <= x < 0x1_0000_0000_0000_0000_0000_0000_0000_0000

  const TWO_31: int := 0x8000_0000
  const TWO_32: int := 0x1_0000_0000

  /** Truncation to 32 bits, as `as u32` and `wrapping_sub` do. */
  function Wrap32(x: int): u32 {
    x % TWO_32
  }

  function Wrap16(x: int): u16 {
    x % 0x1_0000
  }

  /** Reinterpretation of a 32-bit word as a two's complement integer, as `as i32` does. */
  function Signed32(x: u32): int {
    if x < TWO_31 then x else x - TWO_32
  }

  function Max(a: int, b: int): int {
    if a < b then b else a
  }

  function Min(a: int, b: int): int {
    if a < b then a else b
  }

  lemma TimesMonotone(a: nat, b: nat, c: nat)
    requires a <= b
    ensures a * c <= b * c
  {
  }

  lemma {:induction false} SubsetIsSmaller<T>(a: set<T>, b: set<T>)
    requires a <= b
    ensures |a| <= |b|
  {
    if a != {} {
      var x :| x in a;
      SubsetIsSmaller(a - {x}, b - {x});
    }
  }

  lemma MultipleIsFar(d: int, m: int)
    requires m > 0
    ensures d > 0 ==> d * m >= m
    ensures d < 0 ==> d * m <= -m
  {
    if d > 0 {
      assert (d - 1) * m >= 0;
    } else if d < 0 {
      assert (-1 - d) * m >= 0;
    }
  }

  lemma ModShift(x: int, k: int, m: int)
    requires m > 0
    ensures (x + k * m) % m == x % m
  {
    var q := (x + k * m) / m;
    assert (x + k * m) == q * m + (x + k * m) % m;
    assert x == (x / m) * m + x % m;
    var d := q - k - x / m;
    assert d * m == x % m - (x + k * m) % m by {
      assert d * m == q * m - k * m - (x / m) * m;
    }
    MultipleIsFar(d, m);
  }

  /** Two integers less than a modulus apart share a residue only if they are equal. */
  lemma SameResidue(p: int, q: int, m: int)
    requires m > 0 && -m < p - q < m && p % m == q % m
    ensures p == q
  {
    var d := p / m - q / m;
    assert p - q == d * m by {
      assert p == (p / m) * m + p % m;
      assert q == (q / m) * m + q % m;
    }
    MultipleIsFar(d, m);
  }

  lemma WrapOf(x: int, k: int)
    ensures Wrap32(x + k * TWO_32) == Wrap32(x)
  {
    ModShift(x, k, TWO_32);
  }

  /** Each operand of a difference may be truncated before or after it is taken. */
  lemma WrapDifference(a: int, b: int)
    ensures Wrap32(Wrap32(a) - b) == Wrap32(a - b)
    ensures Wrap32(a - Wrap32(b)) == Wrap32(a - b)
    ensures Wrap32(Wrap32(a) + b) == Wrap32(a + b)
  {
    WrapOf(a - b, -(a / TWO_32));
    WrapOf(a - b, b / TWO_32);
    WrapOf(a + b, -(a / TWO_32));
  }

  lemma WrapAdd(x: int, a: int, c: int)
    ensures Wrap32(Wrap32(x + a) + c) == Wrap32(x + (a + c))
  {
    WrapDifference(x + a, -c);
  }

  lemma SignedWrap(position: int)
    requires -TWO_31 <= position < TWO_31
    ensures Signed32(Wrap32(position)) == position
  {
    if position < 0 {
      WrapOf(position, 1);
    }
  }

  /** A wrapped difference recovers every signed distance that fits 32 bits,
      whatever word the two ends are measured from. */
  lemma WrappedDistance(base: u32, origin: int, position: int)
    requires -TWO_31 <= position < TWO_31
    ensures Signed32(Wrap32(Wrap32(base + (position - origin)) - Wrap32(base - Wrap32(origin)))) == position
  {
    WrapDifference(base, origin);
    WrapDifference(base + (position - origin), Wrap32(base - Wrap32(origin)));
    WrapDifference(base + (position - origin), base - origin);
    SignedWrap(position);
  }
}
