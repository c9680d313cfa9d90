/** Fixed-width machine words: the wrapping arithmetic of the VM's integer
    opcodes, the CONV opcodes, and the big-endian operand encoding that the
    assembler writes and the VM reads back. */
module Words {

  const M8 := 0x100
  const M16 := 0x1_0000
  const M32 := 0x1_0000_0000
  const M63 := 0x8000_0000_0000_0000
  const M64 := 0x1_0000_0000_0000_0000

  type u8 = x: int | 0 <= x < M8
  type u32 = x: int | 0 <= x < M32
  type u64 = x: int | 0 <= x < M64

  /** The value of an unfilled jump operand. */
  const HOLE: u32 := 0xFFFF_FFFF

  // ---------------------------------------------------------------- arithmetic

  function Wrap(x: int): u64 {
    x % M64
  }

  function Low32(x: u64): u32 {
    x % M32
  }

  function Signed(x: u64): int {
    if x < M63 then x else x - M64
  }

  /** C++ signed division truncates toward zero. */
  function TruncDiv(a: int, b: int): int
    requires b != 0
  {
    if a >= 0 then
      if b > 0 then a / b else -(a / -b)
    else
      if b > 0 then -((-a) / b) else (-a) / (-b)
  }

  function TruncMod(a: int, b: int): int
    requires b != 0
  {
    a - TruncDiv(a, b) * b
  }

  /** DIV_I64, with the overflowing case singled out as the VM does. */
  function Div64(a: u64, b: u64): u64
    requires b != 0
  {
    if a == M63 && b == M64 - 1 then M63
    else Wrap(TruncDiv(Signed(a), Signed(b)))
  }

  /** MOD_I64. */
  function Mod64(a: u64, b: u64): u64
    requires b != 0
  {
    if a == M63 && b == M64 - 1 then 0
    else Wrap(TruncMod(Signed(a), Signed(b)))
  }

  /** TruncDiv and TruncMod in terms of the magnitudes of their operands. */
  lemma TruncByMagnitude(a: int, b: int)
    requires b != 0
    ensures TruncDiv(a, b) == if (a >= 0) == (b > 0) then Magnitude(a) / Magnitude(b)
                              else -(Magnitude(a) / Magnitude(b))
    ensures TruncMod(a, b) == if a >= 0 then Magnitude(a) % Magnitude(b)
                              else -(Magnitude(a) % Magnitude(b))
  {
    var p: int, q: int := Magnitude(a), Magnitude(b);
    var d: int, r: int := p / q, p % q;
    DivisionParts(p, q);
    Signs(q, d);
  }

  lemma DivisionParts(p: int, q: int)
    requires q != 0
    ensures p == q * (p / q) + p % q
  {
  }

  lemma Signs(q: int, d: int)
    ensures d * q == q * d && -d * q == -(q * d) && d * -q == -(q * d) && -d * -q == q * d
  {
  }

  lemma QuotientBounds(p: nat, q: nat)
    requires q > 0
    ensures 0 <= p / q <= p
    ensures q >= 2 ==> p / q <= p / 2
  {
    var d: int := p / q;
    DivisionParts(p, q);
    MulAtLeast(q, d);
    assert d >= 0;
    if q >= 2 {
      MulAtLeast(q - 2, d);
      ProductsApart(q, 2, d);
    }
  }

  lemma MulAtLeast(x: int, y: int)
    requires x >= 0
    ensures y >= 1 ==> x * y >= x
    ensures y <= -1 ==> x * y <= -x
    ensures y >= 0 ==> x * y >= 0
    ensures x >= 1 && y >= 0 ==> x * y >= y
  {
    if y >= 1 { assert x * y == x + x * (y - 1); assert x * (y - 1) >= 0; }
    if y <= -1 { assert x * y == -x + x * (y + 1); assert x * -(y + 1) >= 0; assert x * (y + 1) == -(x * -(y + 1)); }
    if x >= 1 && y >= 0 { assert x * y == y + (x - 1) * y; assert (x - 1) * y >= 0; }
  }

  function Magnitude(x: int): nat {
    if x < 0 then -x else x
  }

  /** The truncated-division identity holds for every pair of words, including
      the one quotient that does not fit. */
  lemma DivModIdentity(a: u64, b: u64)
    requires b != 0
    ensures Wrap(Signed(Div64(a, b)) * Signed(b) + Signed(Mod64(a, b))) == a
    ensures Magnitude(Signed(Mod64(a, b))) < Magnitude(Signed(b))
    ensures Signed(Mod64(a, b)) == 0 || (Signed(Mod64(a, b)) < 0) == (Signed(a) < 0)
  {
    if a == M63 && b == M64 - 1 {
      assert Signed(Div64(a, b)) * Signed(b) + Signed(Mod64(a, b)) == M63;
    } else {
      var x, y := Signed(a), Signed(b);
      TruncByMagnitude(x, y);
      QuotientBounds(Magnitude(x), Magnitude(y));
      assert -M63 <= TruncDiv(x, y) < M63;
      SignedOfWrap(TruncDiv(x, y));
      SignedOfWrap(TruncMod(x, y));
      assert TruncDiv(x, y) * y + TruncMod(x, y) == x;
      WrapOfSigned(a);
    }
  }

  /** q and r divide x by y as C++ does: the remainder has the sign of the dividend. */
  ghost predicate Truncates(x: int, y: int, q: int, r: int) {
    x == q * y + r && Magnitude(r) < Magnitude(y) && (r == 0 || (r < 0) == (x < 0))
  }

  /** There is one such quotient and one such remainder. */
  lemma TruncatesOnce(x: int, y: int, q: int, r: int, q': int, r': int)
    requires Truncates(x, y, q, r) && Truncates(x, y, q', r')
    ensures q == q' && r == r'
  {
    var d, n := q - q', Magnitude(y);
    ProductsApart(q, q', y);
    Signs(n, d);
    MulAtLeast(n, d);
  }

  lemma ProductsApart(q: int, q': int, y: int)
    ensures (q - q') * y == q * y - q' * y
  {
  }

  /** DIV_I64 leaves the truncated quotient, modulo 2^64 where it does not fit, and
      MOD_I64 the remainder. */
  lemma Truncated(a: u64, b: u64)
    requires b != 0
    ensures exists q: int, r: int :: Truncates(Signed(a), Signed(b), q, r) &&
                                     (Div64(a, b) - q) % M64 == 0 && Signed(Mod64(a, b)) == r
  {
    var x, y := Signed(a), Signed(b);
    DivModIdentity(a, b);
    var r := Signed(Mod64(a, b));
    if a == M63 && b == M64 - 1 {
      assert Truncates(x, y, M63, r);
    } else {
      TruncByMagnitude(x, y);
      QuotientBounds(Magnitude(x), Magnitude(y));
      SignedOfWrap(TruncMod(x, y));
      WrapShift(TruncDiv(x, y));
      assert Truncates(x, y, TruncDiv(x, y), r);
    }
  }

  lemma WrapShift(x: int)
    ensures (Wrap(x) - x) % M64 == 0
  {
    assert Wrap(x) - x == M64 * -(x / M64);
    ResiduePeriodic(0, M64, -(x / M64));
  }

  lemma OneWord(v: u64, v': u64, x: int)
    requires (v - x) % M64 == 0 && (v' - x) % M64 == 0
    ensures v == v'
  {
    var d := (v - x) / M64 - (v' - x) / M64;
    assert v - v' == M64 * d;
  }

  /** A word's signed value is the number in the signed range with its residue. */
  lemma SignedValue(a: u64)
    ensures -M63 <= Signed(a) < M63 && (Signed(a) - a) % M64 == 0
  {
    if a >= M63 { ResiduePeriodic(0, M64, -1); }
  }

  /** A word is its upper half and its lower. */
  lemma Halves(a: u64)
    ensures exists high: u32 :: a as int == high * M32 + Low32(a)
  {
    var high := a / M32;
    assert a as int == high * M32 + Low32(a);
  }

  lemma WrapOfSigned(a: u64)
    ensures Wrap(Signed(a)) == a
  {
  }

  lemma SignedOfWrap(x: int)
    requires -M63 <= x < M63
    ensures Signed(Wrap(x)) == x
  {
    if x < 0 { assert x % M64 == x + M64; }
  }

  // ------------------------------------------------------------- CONV opcodes

  datatype Conv = Keep | I8 | I16 | I32 | U8 | U16 | U32

  function Modulus(c: Conv): (m: nat)
    ensures m > 1
  {
    match c
    case Keep => M64
    case I8 => M8
    case U8 => M8
    case I16 => M16
    case U16 => M16
    case I32 => M32
    case U32 => M32
  }

  predicate IsSignedConv(c: Conv) {
    c.I8? || c.I16? || c.I32?
  }

  /** Truncate to the width, then sign-extend or zero-extend to 64 bits. */
  function Narrow(c: Conv, v: u64): u64 {
    var m := Modulus(c);
    var low := v % m;
    if IsSignedConv(c) && low >= m / 2 then M64 - m + low else low
  }

  lemma NarrowByResidue(c: Conv, a: u64, b: u64)
    ensures Narrow(c, a) == Narrow(c, b) <==> a % Modulus(c) == b % Modulus(c)
    ensures Narrow(c, a) % Modulus(c) == a % Modulus(c)
  {
    NarrowKeepsResidue(c, a);
    NarrowKeepsResidue(c, b);
  }

  /** How many moduli a sign extension adds. */
  function SignPadding(c: Conv): (q: int)
    ensures Modulus(c) * q == M64 - Modulus(c)
  {
    match c
    case Keep => 0
    case I8 => 0xFF_FFFF_FFFF_FFFF
    case U8 => 0xFF_FFFF_FFFF_FFFF
    case I16 => 0xFFFF_FFFF_FFFF
    case U16 => 0xFFFF_FFFF_FFFF
    case I32 => 0xFFFF_FFFF
    case U32 => 0xFFFF_FFFF
  }

  lemma NarrowKeepsResidue(c: Conv, a: u64)
    ensures Narrow(c, a) % Modulus(c) == a % Modulus(c)
  {
    hide Modulus, SignPadding;
    var m, q := Modulus(c), SignPadding(c);
    var low := a % m;
    DivisionIsUnique(M64 - m + low, m, q, low);
    DivisionIsUnique(low, m, 0, low);
  }

  /** The values a type of that width and sign has, each one word. */
  predicate InRange(c: Conv, v: u64) {
    match c
    case Keep => true
    case I8 => -128 <= Signed(v) < 128
    case I16 => -32768 <= Signed(v) < 32768
    case I32 => -2147483648 <= Signed(v) < 2147483648
    case U8 => v < 256
    case U16 => v < 65536
    case U32 => v < 4294967296
  }

  /** How many values that is. */
  ghost predicate Distance(c: Conv, m: nat) {
    match c
    case Keep => m == M64
    case I8 => m == 256
    case U8 => m == 256
    case I16 => m == 65536
    case U16 => m == 65536
    case I32 => m == 4294967296
    case U32 => m == 4294967296
  }

  /** CONV takes a word to the value of the type that is a multiple of the type's
      size away; there is only one. */
  lemma NarrowIntoRange(c: Conv, a: u64, m: nat)
    requires Distance(c, m)
    ensures InRange(c, Narrow(c, a)) && (Narrow(c, a) - a) % m == 0
    ensures forall v: u64 :: InRange(c, v) && (v - a) % m == 0 ==> v == Narrow(c, a)
  {
    NarrowApart(c, a, m);
    forall v: u64 | InRange(c, v) && (v - a) % m == 0
      ensures v == Narrow(c, a)
    {
      OneInRange(c, v, Narrow(c, a), a, m);
    }
  }

  /** Values in range are those that stay as they are. */
  lemma InRangeStays(c: Conv, v: u64)
    ensures InRange(c, v) <==> Narrow(c, v) == v
  {
    var m := Modulus(c);
    assert Distance(c, m);
    NarrowIntoRange(c, v, m);
    assert InRange(c, v) && (v - v) % m == 0 ==> v == Narrow(c, v);
  }

  lemma NarrowApart(c: Conv, a: u64, m: nat)
    requires Distance(c, m)
    ensures InRange(c, Narrow(c, a)) && (Narrow(c, a) - a) % m == 0
  {
    var low := a % m;
    LowApart(a, m);
    if IsSignedConv(c) && low >= m / 2 {
      Extended(c, low, m);
      PaddingApart(c, m);
      SumApart(M64 - m, low - a, m);
    } else {
      Fits(c, low, m);
    }
  }

  lemma LowApart(a: u64, m: nat)
    requires m > 0
    ensures (a % m - a) % m == 0
  {
    var d: int := a / m;
    DivisionParts(a, m);
    Signs(m, d);
    DivisionIsUnique(m * -d, m, -d, 0);
  }

  lemma PaddingApart(c: Conv, m: nat)
    requires Distance(c, m)
    ensures (M64 - m) % m == 0
  {
    ResiduePeriodic(0, m, SignPadding(c));
  }

  lemma SumApart(x: int, y: int, m: nat)
    requires m > 0 && x % m == 0 && y % m == 0
    ensures (x + y) % m == 0 && (x - y) % m == 0
  {
    RingResidues(x, 0, y, 0, m);
  }

  lemma Extended(c: Conv, low: nat, m: nat)
    requires Distance(c, m) && IsSignedConv(c) && m / 2 <= low < m
    ensures InRange(c, M64 - m + low)
  {
  }

  lemma Fits(c: Conv, low: nat, m: nat)
    requires Distance(c, m) && low < m && (IsSignedConv(c) ==> low < m / 2)
    ensures InRange(c, low)
  {
  }

  lemma OneInRange(c: Conv, v: u64, u: u64, a: u64, m: nat)
    requires Distance(c, m) && InRange(c, v) && InRange(c, u) && (v - a) % m == 0 && (u - a) % m == 0
    ensures v == u
  {
    SumApart(v - a, u - a, m);
    if IsSignedConv(c) {
      SignedApart(c, v, m);
      SignedApart(c, u, m);
      SumApart(Signed(v) - v, Signed(u) - u, m);
      SumApart((Signed(v) - v) - (Signed(u) - u), (v - a) - (u - a), m);
      Apart(Signed(v) - Signed(u), m);
    } else {
      Apart(v - u, m);
    }
  }

  lemma SignedApart(c: Conv, v: u64, m: nat)
    requires Distance(c, m)
    ensures (Signed(v) - v) % m == 0
  {
    PaddingApart(c, m);
    SumApart(M64 - m, m, m);
    SumApart(0, M64, m);
  }

  lemma Apart(x: int, m: nat)
    requires m > 0 && x % m == 0 && x < m && -x < m
    ensures x == 0
  {
    MulAtLeast(m, x / m);
  }

  lemma WrapKeepsResidue(c: Conv, x: int)
    ensures Wrap(x) % Modulus(c) == x % Modulus(c)
  {
    var m := Modulus(c);
    var k := match m case 0x100 => 0x100_0000_0000_0000
                     case 0x1_0000 => 0x1_0000_0000_0000
                     case 0x1_0000_0000 => 0x1_0000_0000
                     case _ => 1;
    assert m * k == M64;
    assert x == Wrap(x) + m * (k * (x / M64)) by {
      assert m * (k * (x / M64)) == (m * k) * (x / M64);
    }
    ResiduePeriodic(Wrap(x), m, k * (x / M64));
  }

  lemma ResiduePeriodic(x: int, m: nat, k: int)
    requires m > 0
    ensures (x + m * k) % m == x % m
  {
    var q, r := x / m, x % m;
    assert x + m * k == m * (q + k) + r;
    DivisionIsUnique(x + m * k, m, q + k, r);
  }

  lemma DivisionIsUnique(x: int, m: nat, q: int, r: int)
    requires m > 0 && 0 <= r < m && x == m * q + r
    ensures x % m == r
  {
    var d := x / m - q;
    assert m * (x / m) + x % m == m * q + r;
    assert m * d == r - x % m;
    MulAtLeast(m, d);
  }

  /** +, - and * respect residues. */
  lemma RingResidues(a: int, a': int, b: int, b': int, m: nat)
    requires m > 0 && a % m == a' % m && b % m == b' % m
    ensures (a + b) % m == (a' + b') % m
    ensures (a - b) % m == (a' - b') % m
    ensures (a * b) % m == (a' * b') % m
  {
    var i, j := a / m - a' / m, b / m - b' / m;
    assert a == a' + m * i;
    assert b == b' + m * j;
    ResiduePeriodic(a' + b', m, i + j);
    assert a' + b' + m * (i + j) == a + b;
    ResiduePeriodic(a' - b', m, i - j);
    assert a' - b' + m * (i - j) == a - b;
    var k := a' * j + b' * i + i * (m * j);
    ProductShift(a', b', m, i, j);
    ResiduePeriodic(a' * b', m, k);
  }

  lemma ProductShift(a: int, b: int, m: int, i: int, j: int)
    ensures (a + m * i) * (b + m * j) == a * b + m * (a * j + b * i + i * (m * j))
  {
    var x, y := m * i, m * j;
    assert (a + x) * (b + y) == a * b + a * y + x * b + x * y;
    assert a * y == m * (a * j) by { MulSwap(a, m, j); }
    assert x * b == m * (b * i) by { MulSwap(b, m, i); }
    assert x * y == m * (i * y) by { MulSwap(y, m, i); }
  }

  lemma MulSwap(a: int, m: int, j: int)
    ensures a * (m * j) == m * (a * j)
  {
  }

  // ------------------------------------------------- big-endian operand bytes

  /** What emit_int32 appends. */
  function BigEndian32(v: u32): (b: seq<u8>)
    ensures |b| == 4
  {
    [v / 0x100_0000 % 0x100, v / 0x1_0000 % 0x100, v / 0x100 % 0x100, v % 0x100]
  }

  /** What emit_int64 appends: the high word, then the low word. */
  function BigEndian64(v: u64): (b: seq<u8>)
    ensures |b| == 8
  {
    BigEndian32(v / M32) + BigEndian32(v % M32)
  }

  /** What read_u32 computes. */
  function Read32(code: seq<u8>, pc: nat): u32
    requires pc + 4 <= |code|
  {
    code[pc] as int * 0x100_0000 + code[pc + 1] as int * 0x1_0000 + code[pc + 2] as int * 0x100 + code[pc + 3] as int
  }

  function Read64(code: seq<u8>, pc: nat): u64
    requires pc + 8 <= |code|
  {
    Read32(code, pc) as int * M32 + Read32(code, pc + 4) as int
  }

  lemma Read32Back(code: seq<u8>, pc: nat, v: u32)
    requires pc + 4 <= |code| && code[pc..pc + 4] == BigEndian32(v)
    ensures Read32(code, pc) == v
  {
    var b := code[pc..pc + 4];
    assert code[pc] == b[0] && code[pc + 1] == b[1] && code[pc + 2] == b[2] && code[pc + 3] == b[3];
    assert v / 0x100 / 0x100 == v / 0x1_0000;
    assert v / 0x1_0000 / 0x100 == v / 0x100_0000;
  }

  lemma Read64Back(code: seq<u8>, pc: nat, v: u64)
    requires pc + 8 <= |code| && code[pc..pc + 8] == BigEndian64(v)
    ensures Read64(code, pc) == v
  {
    var b := code[pc..pc + 8];
    assert code[pc..pc + 4] == b[..4] == BigEndian32(v / M32);
    assert code[pc + 4..pc + 8] == b[4..] == BigEndian32(v % M32);
    Read32Back(code, pc, v / M32);
    Read32Back(code, pc + 4, v % M32);
  }
}
