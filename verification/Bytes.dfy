/** Bytes, 32-bit words and the little arithmetic the ring and the element codec rest on. */
module Bytes {

  type byte = x: int | 0 <= x < 256

  /** A payload or a raw list element: what the source keeps in a `std::string`. */
  type Payload = seq<byte>

  /** Number of values of a `uint32_t`; its counters wrap modulo this. */
  const U32: int := 0x1_0000_0000

  const INT_MAX: int := 0x7fff_ffff

  type u32 = x: int | 0 <= x < 0x1_0000_0000

  datatype Option<+T> = None | Some(value: T)

  function Min(a: int, b: int): int {
    if a <= b then a else b
  }

  function Max(a: int, b: int): int {
    if a <= b then b else a
  }

  /** Unsigned 32-bit wrap-around of any mathematical integer. */
  function Wrap(x: int): u32 {
    x % U32
  }

  /** The value a 32-bit pattern has when read as a signed `int`. */
  function AsInt32(w: u32): int {
    if w <= INT_MAX then w else w - U32
  }

  // ----- little-endian words -----

  function LE32(w: u32): (b: Payload)
    ensures |b| == 4
  {
    var q1: int := w / 256;
    var q2: int := q1 / 256;
    [w % 256, q1 % 256, q2 % 256, q2 / 256]
  }

  function FromLE32(b: Payload): u32
    requires |b| >= 4
  {
    var b0: int, b1: int, b2: int, b3: int := b[0], b[1], b[2], b[3];
    b0 + 256 * (b1 + 256 * (b2 + 256 * b3))
  }

  lemma LE32RoundTrip(w: u32, rest: Payload)
    ensures FromLE32(LE32(w) + rest) == w
  {
    var c, b := LE32(w), LE32(w) + rest;
    assert b[0] == c[0] && b[1] == c[1] && b[2] == c[2] && b[3] == c[3];
  }

  lemma Wrap32RoundTrip(i: int)
    requires -INT_MAX - 1 <= i <= INT_MAX
    ensures AsInt32(Wrap(i)) == i
  {
    if i < 0 {
      assert i == U32 * -1 + (i + U32);
    }
  }

  // ----- powers of two, masks and residues -----

  function Pow2(k: nat): (p: nat)
    ensures p >= 1
  {
    if k == 0 then 1 else 2 * Pow2(k - 1)
  }

  /** Bitwise `&` of two non-negative integers. */
  function And(x: nat, y: nat): nat {
    if x == 0 || y == 0 then 0
    else (if x % 2 == 1 && y % 2 == 1 then 1 else 0) + 2 * And(x / 2, y / 2)
  }

  lemma {:induction false} MultipleGrows(d: nat, n: nat)
    requires d > 0
    ensures d * n >= n
    decreases d
  {
    if d > 1 {
      MultipleGrows(d - 1, n);
      assert d * n == (d - 1) * n + n;
    }
  }

  lemma SmallMultiple(d: int, n: int)
    requires n > 0 && -n < d * n < n
    ensures d == 0
  {
    assert (-d) * n == -(d * n);
    if d > 0 {
      MultipleGrows(d, n);
    } else if d < 0 {
      MultipleGrows(-d, n);
    }
  }

  /** Quotient and remainder are unique. */
  lemma ModUnique(x: int, n: int, q: int, r: int)
    requires x == q * n + r && 0 <= r < n
    ensures x % n == r && x / n == q
  {
    assert (q - x / n) * n == x % n - r;
    SmallMultiple(q - x / n, n);
  }

  lemma ModShift(x: int, n: int, d: int)
    requires n > 0 && 0 <= x % n + d < 2 * n
    ensures (x + d) % n == if x % n + d < n then x % n + d else x % n + d - n
  {
    var q := x / n;
    if x % n + d < n {
      ModUnique(x + d, n, q, x % n + d);
    } else {
      assert (q + 1) * n == q * n + n;
      ModUnique(x + d, n, q + 1, x % n + d - n);
    }
  }

  /** Two different positions closer than `n` never share a slot. */
  lemma SlotsDiffer(i: int, j: int, n: int)
    requires n > 0 && i < j < i + n
    ensures i % n != j % n
  {
    ModShift(i, n, j - i);
  }

  lemma ModOfMultiple(x: int, n: int, c: int)
    requires n > 0 && c > 0
    ensures n * c > 0 && (x % (n * c)) % n == x % n
  {
    var m := n * c;
    var q := x / m;
    var r := x % m;
    assert x == m * q + r;
    var rn := r % n;
    assert m * q == (c * q) * n;
    assert x == (c * q + r / n) * n + rn by {
      assert r == n * (r / n) + rn;
      assert (c * q + r / n) * n == (c * q) * n + (r / n) * n;
    }
    ModUnique(x, n, c * q + r / n, rn);
  }

  lemma HalfMod(x: nat, p: nat)
    requires p > 0
    ensures x % (2 * p) == 2 * (x / 2 % p) + x % 2
  {
    var h := x / 2;
    var q, r := h / p, h % p;
    assert h == p * q + r;
    assert q * (2 * p) == 2 * (p * q);
    ModUnique(x, 2 * p, q, 2 * r + x % 2);
  }

  /** Masking with `2^k - 1` is taking the residue modulo `2^k`. */
  lemma {:induction false} MaskIsMod(x: nat, k: nat)
    ensures And(x, Pow2(k) - 1) == x % Pow2(k)
    decreases k
  {
    if k > 0 {
      var p := Pow2(k - 1);
      var y := Pow2(k) - 1;
      assert y % 2 == 1 && y / 2 == p - 1;
      MaskIsMod(x / 2, k - 1);
      HalfMod(x, p);
      if x > 0 {
        assert And(x, y) == x % 2 + 2 * And(x / 2, y / 2);
      }
    }
  }

  lemma {:induction false} Pow2Sum(a: nat, b: nat)
    ensures Pow2(a + b) == Pow2(a) * Pow2(b)
    decreases a
  {
    if a > 0 {
      Pow2Sum(a - 1, b);
      var p, q := Pow2(a - 1), Pow2(b);
      assert Pow2(a + b) == 2 * (p * q) == (2 * p) * q;
    }
  }

  lemma {:induction false} Pow2Monotone(a: nat, b: nat)
    requires a <= b
    ensures Pow2(a) <= Pow2(b)
    decreases b
  {
    if a < b {
      Pow2Monotone(a, b - 1);
    }
  }

  lemma Pow2Values()
    ensures Pow2(3) == 8 && Pow2(30) == 0x4000_0000 && Pow2(31) == 0x8000_0000 && Pow2(32) == U32
  {
    assert Pow2(5) == 32;
    assert Pow2(10) == 1024 by { Pow2Sum(5, 5); }
    assert Pow2(20) == 1048576 by { Pow2Sum(10, 10); }
    assert Pow2(30) == 0x4000_0000 by { Pow2Sum(20, 10); }
  }
}
