/** The table-driven rolling hash of the chunker, and the polynomial it stands for. */
module RollingHash {
  import opened Bytes
  import opened Division

  const BASE := 257
  const POLY_MASK := 0x7f_ffff
  const M23 := 0x80_0000
  const M16 := 0x1_0000

  // ---- Bitwise and with a mask of low bits ----

  function Pow2(n: nat): (p: nat)
    ensures p >= 1
  {
    if n == 0 then 1 else 2 * Pow2(n - 1)
  }

  function BitAnd(x: nat, y: nat): nat {
    if x == 0 || y == 0 then 0 else 2 * BitAnd(x / 2, y / 2) + (x % 2) * (y % 2)
  }

  lemma {:induction false} HalfMod(x: nat, m: nat)
    requires m > 0
    ensures x % (2 * m) == 2 * ((x / 2) % m) + x % 2
  {
    var q, r := (x / 2) / m, (x / 2) % m;
    assert x / 2 == m * q + r;
    assert x == (2 * m) * q + (2 * r + x % 2);
    QuotientRemainder(x, 2 * m, q, 2 * r + x % 2);
  }

  /** Masking with `2^n - 1` is taking the remainder by `2^n`. */
  lemma {:induction false} MaskIsMod(x: nat, n: nat)
    ensures BitAnd(x, Pow2(n) - 1) == x % Pow2(n)
    decreases n
  {
    if n == 0 {
    } else {
      HalfMod(x, Pow2(n - 1));
      MaskIsMod(x / 2, n - 1);
      var y := Pow2(n) - 1;
      assert y / 2 == Pow2(n - 1) - 1 && y % 2 == 1;
    }
  }

  /** `x & polyMOD` */
  function Masked(x: nat): (r: nat)
    ensures r == x % M23
  {
    PolyMaskIsMod(x);
    BitAnd(x, POLY_MASK)
  }

  lemma PolyMaskIsMod(x: nat)
    ensures BitAnd(x, POLY_MASK) == x % M23
  {
    hide BitAnd;
    assert Pow2(8) == 256;
    assert Pow2(16) == 256 * Pow2(8);
    assert Pow2(23) == M23;
    MaskIsMod(x, 23);
  }

  // ---- The polynomial ----

  function Pow(n: nat): (p: nat)
    ensures p >= 1
  {
    if n == 0 then 1 else BASE * Pow(n - 1)
  }

  /** The bytes as digits in base 257, the last one lowest. */
  function Poly(s: Bytes): nat {
    if s == [] then 0 else Poly(s[..|s| - 1]) * BASE + s[|s| - 1]
  }

  lemma {:induction false} PolyFront(s: Bytes)
    requires s != []
    ensures Poly(s) == s[0] * Pow(|s| - 1) + Poly(s[1..])
  {
    if |s| > 1 {
      var init := s[..|s| - 1];
      PolyFront(init);
      assert init[1..] == s[1..][..|s| - 2];
      assert Poly(s) == (s[0] * Pow(|s| - 2) + Poly(init[1..])) * BASE + s[|s| - 1];
      assert s[0] * Pow(|s| - 1) == s[0] * Pow(|s| - 2) * BASE;
    }
  }

  // Remainders by the fixed powers of two.

  lemma SplitFactor(b: int, x: int)
    ensures b * x == b * (x % M23) + M23 * (b * (x / M23))
  {
    assert x == x % M23 + M23 * (x / M23);
  }

  lemma ModOfMultiple(u: int, t: int)
    ensures (u + M23 * t) % M16 == u % M16 && (u + M23 * t) % M23 == u % M23
  {
    QuotientRemainder(u + M23 * t, M16, u / M16 + 128 * t, u % M16);
    QuotientRemainder(u + M23 * t, M23, u / M23 + t, u % M23);
  }

  lemma Narrow(x: int)
    ensures (x % M23) % M16 == x % M16
  {
    ModOfMultiple(x % M23, x / M23);
  }

  lemma NoWrap(x: nat)
    requires x < U32
    ensures x % U32 == x
  {
  }

  /** A factor may be reduced modulo 2^23 first: neither remainder changes. */
  lemma ReduceFactor(b: int, x: int)
    ensures (b * (x % M23)) % M16 == (b * x) % M16
    ensures (b * (x % M23)) % M23 == (b * x) % M23
  {
    SplitFactor(b, x);
    ModOfMultiple(b * (x % M23), b * (x / M23));
  }

  lemma AddMod(x: int, y: int, z: int)
    requires y % M16 == z % M16
    ensures (x % M16 + y) % M16 == (x + z) % M16
  {
  }

  lemma SlideMod(x: int, gone: int, b: int)
    ensures ((x % M16 + (-gone) % M23) * BASE + b) % M16 == ((x - gone) * BASE + b) % M16
  {
    var q := (-gone) / M23;
    assert -gone == (-gone) % M23 + M23 * q;
    assert x == x % M16 + M16 * (x / M16);
  }

  // ---- The tables ----

  /** `powerLUT`: the powers of the base modulo 2^23. */
  predicate PowersOk(lut: seq<nat>, w: nat) {
    |lut| == w && forall i :: 0 <= i < w ==> lut[i] == Pow(i) % M23
  }

  /** `removeLUT`: minus what the oldest byte of a window contributes, modulo 2^23. */
  predicate RemovesOk(lut: seq<nat>, w: nat)
    requires w > 0
  {
    |lut| == 256 && forall b :: 0 <= b < 256 ==> lut[b] == (-(b * Pow(w - 1))) % M23
  }

  /** One more power, in 32-bit arithmetic that does not overflow. */
  lemma NextPower(power: nat, i: nat)
    requires power == Pow(i) % M23
    ensures power * BASE < U32 && Masked((power * BASE) % U32) == Pow(i + 1) % M23
  {
    hide Pow;
    PowStep(i);
    NoWrap(power * BASE);
    ReduceFactor(BASE, Pow(i));
  }

  lemma PowStep(i: nat)
    ensures Pow(i + 1) == BASE * Pow(i)
  {
  }

  method PowerTable(w: nat) returns (lut: array<nat>)
    requires w > 0
    ensures PowersOk(lut[..], w)
  {
    hide Pow, Masked;
    lut := new nat[w](_ => 0);
    assert Pow(0) == 1 by { PowZero(); }
    lut[0] := 1;
    var i := 1;
    while i < w
      invariant 1 <= i <= w
      invariant forall j :: 0 <= j < i ==> lut[j] == Pow(j) % M23
    {
      NextPower(lut[i - 1], i - 1);
      lut[i] := Masked((lut[i - 1] * BASE) % U32);
      i := i + 1;
    }
  }

  lemma PowZero()
    ensures Pow(0) == 1
  {
  }

  /** What the remove table holds for a byte, given the highest power. */
  function Removal(b: nat, power: nat): nat
    requires b < 256 && power < M23
  {
    var r := Masked((b * power) % U32);
    if r != 0 then Masked(POLY_MASK - r + 1) else 0
  }

  lemma RemovalIsMinus(b: nat, x: nat)
    requires b < 256
    ensures b * (x % M23) < U32 && Removal(b, x % M23) == (-(b * x)) % M23
  {
    var product := b * (x % M23);
    assert product <= 255 * (x % M23);
    NoWrap(product);
    ReduceFactor(b, x);
    NegatedProduct(b * x, product % M23);
  }

  lemma NegatedProduct(y: int, r: nat)
    requires r == y % M23
    ensures (-y) % M23 == if r == 0 then 0 else Masked(POLY_MASK - r + 1)
  {
    Negated(y);
  }

  lemma Negated(y: int)
    ensures (-y) % M23 == if y % M23 == 0 then 0 else M23 - y % M23
  {
    var q, r := y / M23, y % M23;
    assert y == M23 * q + r;
    if r == 0 {
      QuotientRemainder(-y, M23, -q, 0);
    } else {
      QuotientRemainder(-y, M23, -q - 1, M23 - r);
    }
  }

  method RemoveTable(powers: array<nat>, w: nat) returns (lut: array<nat>)
    requires w > 0 && PowersOk(powers[..], w)
    ensures RemovesOk(lut[..], w)
  {
    hide Pow, Masked;
    assert powers[w - 1] == powers[..][w - 1] == Pow(w - 1) % M23;
    lut := new nat[256](_ => 0);
    var i := 0;
    while i < 256
      invariant 0 <= i <= 256
      invariant forall b :: 0 <= b < i ==> lut[b] == (-(b * Pow(w - 1))) % M23
    {
      RemovalIsMinus(i, Pow(w - 1));
      var r := Masked((i * powers[w - 1]) % U32);
      if r != 0 {
        r := Masked(POLY_MASK - r + 1);
      }
      lut[i] := r;
      i := i + 1;
    }
  }

  // ---- The steps ----

  /** One byte while the window fills: `fp + b * powerLUT[..]`, masked, in 32 bits, kept in 16. */
  function Filled(fp: nat, b: byte, power: nat): nat {
    Masked((fp + (b * power) % U32) % U32) % M16
  }

  /** One byte when the window is full: the oldest byte's share goes, the new byte comes in. */
  function Slid(fp: nat, remove: nat, b: byte): nat {
    Masked((((Masked(fp) + remove) % U32) * BASE + b) % U32) % M16
  }

  lemma FilledIs(fp: nat, b: byte, power: nat)
    requires fp < M16 && power < M23
    ensures fp + b * power < U32 && Filled(fp, b, power) == (fp + b * power) % M16
  {
    var product := b * power;
    assert product <= 255 * power;
    NoWrap(product);
    NoWrap(fp + product);
    Narrow(fp + product);
  }

  lemma SlidIs(fp: nat, remove: nat, b: byte)
    requires fp < M16 && remove < M23
    ensures (fp + remove) * BASE + b < U32 && Slid(fp, remove, b) == ((fp + remove) * BASE + b) % M16
  {
    assert Masked(fp) == fp;
    NoWrap(fp + remove);
    NoWrap((fp + remove) * BASE + b);
    Narrow((fp + remove) * BASE + b);
  }

  /** Filling keeps the 16-bit value equal to the polynomial, shifted up by the places still to come;
      no 32-bit step overflows. */
  lemma FilledIsPoly(fp: nat, s: Bytes, b: byte, w: nat, powers: seq<nat>)
    requires |s| < w && PowersOk(powers, w)
    requires fp == (Poly(s) * Pow(w - |s|)) % M16
    ensures fp + b * powers[w - |s| - 1] < U32
    ensures Filled(fp, b, powers[w - |s| - 1]) == (Poly(s + [b]) * Pow(w - |s| - 1)) % M16
  {
    var p := Pow(w - |s| - 1);
    FilledIs(fp, b, powers[w - |s| - 1]);
    ReduceFactor(b, p);
    AddMod(Poly(s) * Pow(w - |s|), b * powers[w - |s| - 1], b * p);
    assert (s + [b])[..|s|] == s;
    Distribute(Poly(s), b, p);
  }

  lemma Distribute(x: nat, b: nat, p: nat)
    ensures x * (BASE * p) + b * p == (x * BASE + b) * p
  {
  }

  /** Sliding keeps the 16-bit value equal to the polynomial of the window; no 32-bit step overflows. */
  lemma SlidIsPoly(fp: nat, window: Bytes, b: byte, w: nat, removes: seq<nat>)
    requires 0 < w == |window| && RemovesOk(removes, w)
    requires fp == Poly(window) % M16
    ensures (fp + removes[window[0]]) * BASE + b < U32
    ensures Slid(fp, removes[window[0]], b) == Poly(window[1..] + [b]) % M16
  {
    var gone := window[0] * Pow(w - 1);
    SlidIs(fp, removes[window[0]], b);
    SlideMod(Poly(window), gone, b);
    PolyFront(window);
    assert (window[1..] + [b])[..|window| - 1] == window[1..];
  }

  // ---- The anchor test ----

  /** The number of mask bits is the logarithm of the average chunk size, rounded down. */
  method MaskBits(avgChunkSize: nat) returns (n: nat)
    requires avgChunkSize >= 2
    ensures n >= 1 && Pow2(n) <= avgChunkSize < Pow2(n + 1)
  {
    n := 1;
    while avgChunkSize / Pow2(n) != 1
      invariant n >= 1 && Pow2(n) <= avgChunkSize && n < Pow2(n)
      decreases avgChunkSize - n
    {
      AtLeastDouble(avgChunkSize, Pow2(n));
      n := n + 1;
    }
    JustBelowDouble(avgChunkSize, Pow2(n));
  }

  lemma AtLeastDouble(x: nat, p: nat)
    requires 0 < p <= x && x / p != 1
    ensures 2 * p <= x
  {
    if x < 2 * p {
      QuotientRemainder(x, p, 1, x - p);
    }
  }

  lemma JustBelowDouble(x: nat, p: nat)
    requires p > 0 && x / p == 1
    ensures x < 2 * p
  {
    assert x == p * (x / p) + x % p;
  }

  /** `(winFp & anchorMask) == anchorValue`, the value being 0. */
  predicate IsAnchor(fp: nat, bits: nat) {
    BitAnd(fp, Pow2(bits) - 1) == 0
  }

  /** The test on the 16-bit hash of `x` agrees with the test on all of `x`. */
  ghost predicate TestAgrees(x: nat, bits: nat) {
    IsAnchor(x % M16, bits) <==> x % Pow2(bits) == 0
  }

  /** Keeping only 16 bits of the hash is invisible to the anchor test on windows of `w` bytes exactly
      when the mask has at most 16 bits, or a window is one byte and has no more bits than that. */
  lemma NarrowingInvisibleExactly(w: nat, bits: nat)
    requires w >= 1
    ensures (forall s: Bytes :: |s| == w ==> TestAgrees(Poly(s), bits)) <==> bits <= 16 || w == 1
  {
    hide TestAgrees, Poly;
    if bits <= 16 {
      forall s: Bytes | |s| == w ensures TestAgrees(Poly(s), bits) {
        NarrowAgrees(Poly(s), bits);
      }
    } else if w == 1 {
      forall s: Bytes | |s| == w ensures TestAgrees(Poly(s), bits) {
        ByteAgrees(s, bits);
      }
    } else {
      WideIsM16(w);
      WideDisagrees(bits);
    }
  }

  /** The failing window: zeros, then 255 and 1. */
  function WideWindow(w: nat): (s: Bytes)
    requires w >= 2
    ensures |s| == w
  {
    Zeros(w - 2) + [255, 1]
  }

  /** Its polynomial is 2^16, all of it above the 16 bits kept. */
  lemma WideIsM16(w: nat)
    requires w >= 2
    ensures Poly(WideWindow(w)) == M16
  {
    var s := WideWindow(w);
    PolyZeros(w - 2);
    assert s[..w - 1] == Zeros(w - 2) + [255];
    assert s[..w - 1][..w - 2] == Zeros(w - 2);
  }

  lemma {:induction false} PolyZeros(n: nat)
    ensures Poly(Zeros(n)) == 0
  {
    if n > 0 {
      PolyZeros(n - 1);
      assert Zeros(n)[..n - 1] == Zeros(n - 1);
    }
  }

  lemma ByteAgrees(s: Bytes, bits: nat)
    requires |s| == 1 && bits > 16
    ensures TestAgrees(Poly(s), bits)
  {
    assert Poly(s) == s[0] by { assert s[..0] == []; }
    hide BitAnd, Pow2, Poly;
    Pow2Monotone(17, bits);
    Pow2Sixteen();
    MaskIsMod(s[0], bits);
    assert Poly(s) % M16 == s[0] by { NoRemainderBelow(s[0], M16); }
    NoRemainderBelow(s[0], Pow2(bits));
  }

  lemma NoRemainderBelow(x: nat, m: nat)
    requires x < m
    ensures x % m == x
  {
  }

  lemma NarrowAgrees(x: nat, bits: nat)
    requires bits <= 16
    ensures TestAgrees(x, bits)
  {
    hide BitAnd, Pow2;
    MaskIsMod(x % M16, bits);
    Pow2Divides(bits, 16);
    NarrowTo(x, bits);
  }

  /** There the narrow test finds an anchor, and the wide one does not. */
  lemma WideDisagrees(bits: nat)
    requires bits > 16
    ensures !TestAgrees(M16, bits)
  {
    hide BitAnd, Pow2;
    MaskIsMod(0, bits);
    Pow2Monotone(17, bits);
    Pow2Sixteen();
    NoRemainder(Pow2(bits));
  }

  lemma NoRemainder(m: nat)
    requires m > M16
    ensures M16 % m == M16 && 0 % m == 0 && M16 % M16 == 0
  {
  }

  lemma Pow2Sixteen()
    ensures Pow2(16) == M16 && Pow2(17) == 2 * M16
  {
    assert Pow2(8) == 256;
    assert Pow2(16) == 256 * Pow2(8);
  }

  lemma {:induction false} Pow2Monotone(m: nat, n: nat)
    requires m <= n
    ensures Pow2(m) <= Pow2(n)
    decreases n
  {
    if m < n { Pow2Monotone(m, n - 1); }
  }

  lemma {:induction false} Pow2Divides(m: nat, n: nat)
    requires m <= n
    ensures Pow2(n) == Pow2(m) * Pow2(n - m)
    decreases n
  {
    if m < n { Pow2Divides(m, n - 1); }
  }

  lemma NarrowTo(x: nat, bits: nat)
    requires bits <= 16 && Pow2(16) == Pow2(bits) * Pow2(16 - bits)
    ensures (x % M16) % Pow2(bits) == x % Pow2(bits)
  {
    hide Pow2;
    Pow2Sixteen();
    var m, k := Pow2(bits), Pow2(16 - bits);
    var r, q := x % M16, x / M16;
    assert x == M16 * q + r;
    assert r == m * (r / m) + r % m;
    assert x == m * (k * q + r / m) + r % m by {
      assert m * (k * q + r / m) == (m * k) * q + m * (r / m);
    }
    QuotientRemainder(x, m, k * q + r / m, r % m);
  }
}
