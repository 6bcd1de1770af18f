/** Machine words as natural numbers below 2^64, with the bit operations the queue uses.
    The operators are defined bit by bit, so every law about them is proved here. */
module Bits {

  const WORD: nat := 0x1_0000_0000_0000_0000
  const HALF: nat := 0x8000_0000_0000_0000

  function Pow2(k: nat): (p: nat)
    ensures p >= 1
  {
    if k == 0 then 1 else 2 * Pow2(k - 1)
  }

  function Shr(a: nat, s: nat): nat {
    if s == 0 then a else Shr(a / 2, s - 1)
  }

  function Or(a: nat, b: nat): nat
    decreases a + b
  {
    if a == 0 then b
    else if b == 0 then a
    else 2 * Or(a / 2, b / 2) + (if a % 2 == 1 || b % 2 == 1 then 1 else 0)
  }

  function And(a: nat, b: nat): nat {
    if a == 0 || b == 0 then 0
    else 2 * And(a / 2, b / 2) + (if a % 2 == 1 && b % 2 == 1 then 1 else 0)
  }

  predicate Bit(a: nat, i: nat) {
    if i == 0 then a % 2 == 1 else Bit(a / 2, i - 1)
  }

  lemma {:induction false} Pow2Mono(i: nat, j: nat)
    requires i < j
    ensures 2 * Pow2(i) <= Pow2(j)
  {
    if i + 1 < j { Pow2Mono(i, j - 1); }
  }

  lemma {:induction false} ZeroBit(i: nat)
    ensures !Bit(0, i)
  {
    if i > 0 { ZeroBit(i - 1); }
  }

  lemma Halves(h: nat, a: nat, b: nat)
    ensures (2 * h + (if a % 2 == 1 || b % 2 == 1 then 1 else 0)) / 2 == h
  {}

  lemma {:induction false} OrBit(a: nat, b: nat, i: nat)
    ensures Bit(Or(a, b), i) <==> Bit(a, i) || Bit(b, i)
  {
    if a == 0 || b == 0 {
      ZeroBit(i);
    } else if i > 0 {
      Halves(Or(a / 2, b / 2), a, b);
      OrBit(a / 2, b / 2, i - 1);
    }
  }

  lemma {:induction false} ShrBit(a: nat, s: nat, i: nat)
    ensures Bit(Shr(a, s), i) <==> Bit(a, i + s)
  {
    if s > 0 { ShrBit(a / 2, s - 1, i); }
  }

  lemma {:induction false} ShrBound(a: nat, s: nat)
    ensures Shr(a, s) <= a
  {
    if s > 0 { ShrBound(a / 2, s - 1); }
  }

  lemma {:induction false} OrBound(a: nat, b: nat, len: nat)
    requires a < Pow2(len) && b < Pow2(len)
    ensures Or(a, b) < Pow2(len)
  {
    if a != 0 && b != 0 { OrBound(a / 2, b / 2, len - 1); }
  }

  /** Masking with 2^k - 1 is the remainder modulo 2^k. */
  lemma {:induction false} MaskIsMod(pos: nat, k: nat)
    ensures And(pos, Pow2(k) - 1) == pos % Pow2(k)
  {
    if pos != 0 && k != 0 {
      var h := Pow2(k - 1);
      MaskIsMod(pos / 2, k - 1);
      HalfMod(pos, h);
      LowBit(h);
    } else if k == 0 {
      assert pos % 1 == 0;
    } else {
      assert 0 % Pow2(k) == 0;
    }
  }

  lemma LowBit(h: nat)
    requires h >= 1
    ensures (2 * h - 1) / 2 == h - 1 && (2 * h - 1) % 2 == 1
  {}

  lemma HalfMod(pos: nat, h: nat)
    requires h >= 1
    ensures pos % (2 * h) == 2 * (pos / 2 % h) + pos % 2
  {
    var q, r := pos / 2 / h, pos / 2 % h;
    assert pos == 2 * (q * h + r) + pos % 2;
    assert pos == q * (2 * h) + (2 * r + pos % 2) by { assert 2 * (q * h) == q * (2 * h); }
    ModUnique(pos, 2 * h, q, 2 * r + pos % 2);
  }

  lemma ModUnique(x: nat, d: nat, q: nat, r: nat)
    requires r < d && x == q * d + r
    ensures x % d == r
  {
    var q', r' := x / d, x % d;
    assert q' * d + r' == x;
    SmallMultiple(q - q', d, r' - r) by { assert (q - q') * d == q * d - q' * d; }
  }

  lemma SmallMultiple(k: int, d: nat, r: int)
    requires k * d == r && 0 - d < r < d
    ensures r == 0
  {
  }

  /** v is a len-bit number whose n topmost bits are all set. */
  ghost predicate TopSet(v: nat, len: nat, n: nat) {
    v < Pow2(len) && forall i: nat :: i < len <= i + n ==> Bit(v, i)
  }

  lemma TopBit(v: nat, len: nat)
    requires len >= 1 && Pow2(len - 1) <= v < Pow2(len)
    ensures TopSet(v, len, 1)
  {
    HighBit(v, len);
  }

  lemma {:induction false} HighBit(v: nat, len: nat)
    requires len >= 1 && Pow2(len - 1) <= v < Pow2(len)
    ensures Bit(v, len - 1)
  {
    if len > 1 { HighBit(v / 2, len - 1); }
  }

  /** One smearing step of the cascade doubles the run of set top bits. */
  lemma Smear(v: nat, len: nat, n: nat)
    requires TopSet(v, len, n)
    ensures TopSet(Or(v, Shr(v, n)), len, 2 * n)
  {
    ShrBound(v, n);
    OrBound(v, Shr(v, n), len);
    forall i: nat | i < len <= i + 2 * n
      ensures Bit(Or(v, Shr(v, n)), i)
    {
      OrBit(v, Shr(v, n), i);
      ShrBit(v, n, i);
      assert len <= i + n || i + n < len;
    }
  }

  lemma {:induction false} AllOnes(v: nat, len: nat)
    requires v < Pow2(len) && forall i: nat :: i < len ==> Bit(v, i)
    ensures v == Pow2(len) - 1
  {
    if len > 0 {
      forall i: nat | i < len - 1
        ensures Bit(v / 2, i)
      {
        assert Bit(v, i + 1);
      }
      AllOnes(v / 2, len - 1);
      assert Bit(v, 0);
    }
  }

  /** Number of significant bits. */
  ghost function BitLength(v: nat): (len: nat)
    ensures v < Pow2(len)
    ensures v > 0 ==> len >= 1 && Pow2(len - 1) <= v
  {
    if v == 0 then 0 else 1 + BitLength(v / 2)
  }

  ghost predicate IsLeastPow2(r: nat, v: nat) {
    && (exists k: nat :: r == Pow2(k))
    && v <= r
    && forall k: nat :: v <= Pow2(k) ==> r <= Pow2(k)
  }

  /** What v - 1 is after the word-sized decrement. */
  function Predecessor(v: nat): (u: nat)
    requires v < WORD
    ensures u < WORD
  {
    if v == 0 then WORD - 1 else v - 1
  }

  function Cascade(v: nat): nat {
    var v1 := Or(v, Shr(v, 1));
    var v2 := Or(v1, Shr(v1, 2));
    var v3 := Or(v2, Shr(v2, 4));
    var v4 := Or(v3, Shr(v3, 8));
    var v5 := Or(v4, Shr(v4, 16));
    Or(v5, Shr(v5, 32))
  }

  /** Rounds up to a power of two with the shift-or cascade. A request above 2^63 wraps round to 2. */
  method RoundUpPowerOf2(v0: nat) returns (r: nat)
    requires v0 < WORD
    ensures 2 <= v0 <= HALF ==> IsLeastPow2(r, v0)
    ensures v0 < 2 || v0 > HALF ==> r == 2
    ensures exists k: nat :: 1 <= k <= 63 && r == Pow2(k)
  {
    var v := Predecessor(v0);
    v := Or(v, Shr(v, 1));
    v := Or(v, Shr(v, 2));
    v := Or(v, Shr(v, 4));
    v := Or(v, Shr(v, 8));
    v := Or(v, Shr(v, 16));
    v := Or(v, Shr(v, 32));
    CascadeFills(Predecessor(v0));
    v := if v == WORD - 1 then 0 else v + 1;
    r := if v < 2 then 2 else v;
    if v0 == 1 {
      One();
    } else if 2 <= v0 <= HALF {
      LeastPow2(v0);
    } else {
      FullWord(Predecessor(v0));
      One();
    }
  }

  lemma One()
    ensures Pow2(BitLength(0)) == Pow2(0) == 1 && Pow2(1) == 2
  {}

  lemma CascadeFills(u: nat)
    requires u < WORD
    ensures Cascade(u) == Pow2(BitLength(u)) - 1
  {
    hide Or, Shr, TopSet, Pow2, BitLength;
    var len := BitLength(u);
    WordLength(u);
    FirstSet(u);
    var v1 := Or(u, Shr(u, 1));
    Smear(u, len, 1);
    var v2 := Or(v1, Shr(v1, 2));
    Smear(v1, len, 2);
    var v3 := Or(v2, Shr(v2, 4));
    Smear(v2, len, 4);
    var v4 := Or(v3, Shr(v3, 8));
    Smear(v3, len, 8);
    var v5 := Or(v4, Shr(v4, 16));
    Smear(v4, len, 16);
    var v6 := Or(v5, Shr(v5, 32));
    Smear(v5, len, 32);
    WholeSet(v6, len);
  }

  /** At the start only the highest bit is known to be set. */
  lemma FirstSet(u: nat)
    ensures TopSet(u, BitLength(u), 1)
  {
    if u > 0 { TopBit(u, BitLength(u)); }
  }

  lemma WholeSet(v: nat, len: nat)
    requires TopSet(v, len, 64) && len <= 64
    ensures v == Pow2(len) - 1
  {
    AllOnes(v, len);
  }

  lemma {:induction false} Pow2Add(i: nat, j: nat)
    ensures Pow2(i + j) == Pow2(i) * Pow2(j)
  {
    if j > 0 { Pow2Add(i, j - 1); }
  }

  lemma Powers()
    ensures Pow2(63) == HALF && Pow2(64) == WORD
  {
    assert Pow2(2) == 4;
    Pow2Add(2, 2);
    Pow2Add(4, 4);
    Pow2Add(8, 8);
    Pow2Add(16, 16);
    Pow2Add(32, 32);
  }

  lemma {:induction false} LengthBound(u: nat, n: nat)
    requires u < Pow2(n)
    ensures BitLength(u) <= n
  {
    if u > 0 { LengthBound(u / 2, n - 1); }
  }

  lemma WordLength(u: nat)
    requires u < WORD
    ensures BitLength(u) <= 64
  {
    Powers();
    LengthBound(u, 64);
  }

  lemma FullWord(u: nat)
    requires HALF <= u < WORD
    ensures Pow2(BitLength(u)) == WORD
  {
    hide Pow2, BitLength;
    Powers();
    LengthBound(u, 64);
    if BitLength(u) < 63 { Pow2Mono(BitLength(u), 63); }
  }

  lemma LeastPow2(v: nat)
    requires 2 <= v <= HALF
    ensures var len := BitLength(v - 1); 1 <= len <= 63 && IsLeastPow2(Pow2(len), v) && 2 <= Pow2(len) < WORD
  {
    hide Pow2, BitLength;
    Powers();
    One();
    LengthBound(v - 1, 63);
    var len := BitLength(v - 1);
    Pow2Mono(0, len);
    Pow2Mono(len, 64);
    forall k: nat | v <= Pow2(k)
      ensures Pow2(len) <= Pow2(k)
    {
      NoSmallerPow2(v, len, k);
    }
  }

  lemma NoSmallerPow2(v: nat, len: nat, k: nat)
    requires len >= 1 && Pow2(len - 1) <= v - 1 && v <= Pow2(k)
    ensures Pow2(len) <= Pow2(k)
  {
    hide Pow2;
    if k < len - 1 { Pow2Mono(k, len - 1); }
    if k > len { Pow2Mono(len, k); }
  }
}
