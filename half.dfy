/** Half-precision (IEEE 754-2008 binary16) decoding, as done by the
    `Float16Array.fromBuffer` polyfill of app/SAM2.js: every little-endian
    2-byte word of a buffer becomes one binary32 value. */
module Half {

  /** One element of a `Uint8Array`, or one byte of an `ArrayBuffer`. */
  newtype byte = x: int | 0 <= x < 256

  /** The result of `DataView.getUint16`. */
  type uint16 = x: nat | x < 0x1_0000

  /** A binary32 value as stored in a `Float32Array`. Every binary16 value is
      exact in binary32, so a finite value is its sign and its magnitude; the
      sign is kept apart from the magnitude so that -0 and +0 stay distinct. */
  datatype Float = Finite(negative: bool, magnitude: real) | PosInf | NegInf | NaN

  /** x × 2^e, exactly: `Math.pow(2, e) * x` with the power of two written
      as e doublings, or -e halvings, of x. */
  function Scale(e: int, x: real): real
    decreases if e < 0 then -e else e
  {
    if e == 0 then x else if e > 0 then 2.0 * Scale(e - 1, x) else Scale(e + 1, x) / 2.0
  }

  function IntPow2(e: nat): (r: nat)
    ensures r > 0
  {
    if e == 0 then 1 else 2 * IntPow2(e - 1)
  }

  /** JavaScript's `&` on two non-negative 32-bit integers, bit by bit from
      the least significant one. */
  function And(a: nat, b: nat): nat
    decreases a
  {
    if a == 0 || b == 0 then 0
    else 2 * And(a / 2, b / 2) + (if a % 2 == 1 && b % 2 == 1 then 1 else 0)
  }

  /** JavaScript's `>>` on a non-negative 32-bit integer. */
  function Shr(a: nat, k: nat): nat
  {
    var d := IntPow2(k);
    DivNonneg(a, d);
    a / d
  }

  /** `DataView.getUint16(offset, true)`: lo is the byte at offset, hi the next. */
  function Uint16LE(lo: byte, hi: byte): uint16 { lo as int + 256 * hi as int }

  /** `(sign ? -1 : 1) * m`. */
  function Signed(sign: nat, m: real): Float { Finite(sign != 0, m) }

  /** The polyfill's decoding of one 16-bit word (app/SAM2.js:20-31): the
      fields are cut out with masks and shifts, then combined. */
  function DecodeHalf(word: uint16): Float
  {
    var sign := Shr(And(word, 0x8000), 15);
    var exponent := Shr(And(word, 0x7C00), 10);
    var fraction := And(word, 0x03FF);
    HalfValue(sign, exponent, fraction)
  }

  /** The polyfill's three cases (app/SAM2.js:25-31). */
  function HalfValue(sign: nat, exponent: nat, fraction: nat): Float
  {
    if exponent == 0 then
      Signed(sign, Scale(-14, fraction as real / 1024.0))
    else if exponent == 0x1F then
      (if fraction != 0 then NaN else if sign != 0 then NegInf else PosInf)
    else
      Signed(sign, Scale(exponent as int - 15, 1.0 + fraction as real / 1024.0))
  }

  // Parameters of binary16, section 3.6 of IEEE 754-2008: storage width
  // k = 16, precision p = 11, exponent field width w = k - p = 5 and
  // trailing significand width t = p - 1 = 10.
  const Precision: nat := 11
  const EMax: int := 15
  const Bias: int := EMax
  const EMin: int := 1 - EMax

  /** The fields of an encoding (section 3.4 of IEEE 754-2008), read
      arithmetically: the sign S is the top bit, the biased exponent E the
      next w bits and the trailing significand T the low t bits. */
  function S(n: uint16): nat { n / 0x8000 }            // n / 2^(k-1)
  function E(n: uint16): nat { (n / 0x400) % 0x20 }     // (n / 2^t) % 2^w
  function T(n: uint16): nat { n % 0x400 }              // n % 2^t

  /** The datum a binary16 encoding n represents (section 3.4 of IEEE
      754-2008). */
  function Binary16(n: uint16): Float { Datum(S(n), E(n), T(n)) }

  /** The datum of the fields S, E and T, case by case as section 3.4 of
      IEEE 754-2008 lists them. */
  function Datum(S: nat, E: nat, T: nat): Float
  {
    if E == 0x1F then  // 2^w - 1
      (if T != 0 then NaN else if S == 1 then NegInf else PosInf)
    else if E == 0 then
      Finite(S == 1, Scale(EMin, Scale(1 - Precision, T as real)))
    else
      Finite(S == 1, Scale(E - Bias, 1.0 + Scale(1 - Precision, T as real)))
  }

  // ---- Arithmetic facts about And ----

  lemma MulAtLeast(d: int, x: int)
    requires d > 0
    ensures x >= 1 ==> d * x >= d
    ensures x <= -1 ==> d * x <= -d
  {
    if x >= 1 {
      MulNonneg(d, x - 1);
    } else if x <= -1 {
      MulNonneg(d, -x - 1);
    }
  }

  lemma MulNonneg(a: int, b: int)
    requires a >= 0 && b >= 0
    ensures a * b >= 0
  {
  }

  lemma DivNonneg(a: nat, d: nat)
    requires d > 0
    ensures a / d >= 0
  {
  }

  lemma MulTwice(a: int, b: int)
    ensures (2 * a) * b == 2 * (a * b)
  {
  }

  /** Euclidean division has one quotient and one remainder. */
  lemma ModUnique(n: int, d: int, q: int, r: int)
    requires d > 0 && 0 <= r < d && n == d * q + r
    ensures n / d == q && n % d == r
  {
    var q', r' := n / d, n % d;
    assert n == d * q' + r';
    assert d * (q - q') == r' - r;
    MulAtLeast(d, q - q');
  }

  /** Halving first, then dividing by q, is dividing by 2q. */
  lemma DivModDouble(n: nat, q: nat)
    requires q > 0
    ensures n / (2 * q) == (n / 2) / q
    ensures n % (2 * q) == 2 * ((n / 2) % q) + n % 2
  {
    var a, r := (n / 2) / q, (n / 2) % q;
    assert n / 2 == q * a + r;
    assert n == (2 * q) * a + (2 * r + n % 2);
    ModUnique(n, 2 * q, a, 2 * r + n % 2);
  }

  /** One step of And: the low bits, then the rest shifted right by one. */
  lemma AndStep(a: nat, b: nat)
    requires a > 0 && b > 0
    ensures And(a, b) == 2 * And(a / 2, b / 2) + (if a % 2 == 1 && b % 2 == 1 then 1 else 0)
  {
  }

  /** Masking with 2^k - 1 keeps the low k bits. */
  lemma {:induction false} AndLowMask(n: nat, k: nat)
    ensures And(n, IntPow2(k) - 1) == n % IntPow2(k)
  {
    if k > 0 && n > 0 {
      var q := IntPow2(k - 1);
      var m: nat := 2 * q - 1;
      assert IntPow2(k) - 1 == m;
      ModUnique(m, 2, q - 1, 1);
      AndStep(n, m);
      AndLowMask(n / 2, k - 1);
      assert And(n / 2, m / 2) == (n / 2) % q;
      assert (if n % 2 == 1 && m % 2 == 1 then 1 else 0) == n % 2;
      DivModDouble(n, q);
    } else if k > 0 {
      ModUnique(0, IntPow2(k), 0, 0);
    } else {
      ModUnique(n, 1, n, 0);
    }
  }

  /** k one-bits above j zero-bits. */
  function Mask(j: nat, k: nat): nat
  {
    var a, b := IntPow2(j), IntPow2(k) - 1;
    MulNonneg(a, b);
    a * b
  }

  /** Masking with k one-bits above j zero-bits keeps bits j to j + k - 1. */
  lemma {:induction false} AndShiftedMask(n: nat, j: nat, k: nat)
    ensures And(n, Mask(j, k)) == IntPow2(j) * ((n / IntPow2(j)) % IntPow2(k))
    decreases j, 1
  {
    if j == 0 {
      AndShiftedMaskNoShift(n, k);
    } else if k == 0 || n == 0 {
      AndShiftedMaskZero(n, j, k);
    } else {
      AndShiftedMaskStep(n, j, k);
    }
  }

  lemma AndShiftedMaskNoShift(n: nat, k: nat)
    ensures And(n, Mask(0, k)) == IntPow2(0) * ((n / IntPow2(0)) % IntPow2(k))
  {
    assert IntPow2(0) == 1;
    assert Mask(0, k) == IntPow2(k) - 1;
    AndLowMask(n, k);
    ModUnique(n, 1, n, 0);
  }

  lemma AndShiftedMaskZero(n: nat, j: nat, k: nat)
    requires k == 0 || n == 0
    ensures And(n, Mask(j, k)) == IntPow2(j) * ((n / IntPow2(j)) % IntPow2(k))
  {
    var p, mk := IntPow2(j), IntPow2(k);
    if k == 0 {
      assert mk == 1 && p * (mk - 1) == 0;
      ModUnique(n / p, 1, n / p, 0);
    } else {
      ModUnique(0, p, 0, 0);
      ModUnique(0, mk, 0, 0);
    }
  }

  lemma {:induction false} AndShiftedMaskStep(n: nat, j: nat, k: nat)
    requires n > 0 && j > 0 && k > 0
    ensures And(n, Mask(j, k)) == IntPow2(j) * ((n / IntPow2(j)) % IntPow2(k))
    decreases j, 0
  {
    var p, mk, p' := IntPow2(j), IntPow2(k), IntPow2(j - 1);
    var m := p * (mk - 1);
    var half := p' * (mk - 1);
    assert p == 2 * p';
    MulTwice(p', mk - 1);
    assert m == 2 * half;
    MulAtLeast(p', mk - 1);
    AndStep(n, m);
    assert And(n, m) == 2 * And(n / 2, half);
    AndShiftedMask(n / 2, j - 1, k);
    DivModDouble(n, p');
    var y := (n / p) % mk;
    assert And(n / 2, half) == p' * y;
    MulTwice(p', y);
  }

  /** `(x & mask) >> j` with a mask of k one-bits above j zero-bits. */
  lemma Field(n: nat, j: nat, k: nat)
    ensures Shr(And(n, Mask(j, k)), j) == (n / IntPow2(j)) % IntPow2(k)
  {
    AndShiftedMask(n, j, k);
    var y := (n / IntPow2(j)) % IntPow2(k);
    ModUnique(IntPow2(j) * y, IntPow2(j), y, 0);
  }

  lemma PowersUsed()
    ensures IntPow2(15) == 0x8000 && IntPow2(10) == 0x400 && IntPow2(5) == 0x20 && IntPow2(1) == 2
    ensures Mask(15, 1) == 0x8000 && Mask(10, 5) == 0x7C00
  {
    assert IntPow2(1) == 2;
    assert IntPow2(5) == 0x20;
    assert IntPow2(10) == 0x400;
    assert IntPow2(15) == 0x8000;
  }

  /** The polyfill's masks and shifts extract exactly the fields S, E and T. */
  lemma FieldsOfWord(n: uint16)
    ensures Shr(And(n, 0x8000), 15) == S(n)
    ensures Shr(And(n, 0x7C00), 10) == E(n)
    ensures And(n, 0x03FF) == T(n)
  {
    SignOfWord(n);
    ExponentOfWord(n);
    TrailingOfWord(n);
  }

  lemma SignOfWord(n: uint16)
    ensures Shr(And(n, 0x8000), 15) == S(n)
  {
    PowersUsed();
    Field(n, 15, 1);
    var s := n / 0x8000;
    assert Shr(And(n, 0x8000), 15) == s % 2;
    assert s < 2;
    ModUnique(s, 2, 0, s);
  }

  lemma ExponentOfWord(n: uint16)
    ensures Shr(And(n, 0x7C00), 10) == E(n)
  {
    PowersUsed();
    Field(n, 10, 5);
  }

  lemma TrailingOfWord(n: uint16)
    ensures And(n, 0x03FF) == T(n)
  {
    PowersUsed();
    AndLowMask(n, 10);
    assert IntPow2(10) - 1 == 0x03FF;
  }

  /** The polyfill's case analysis is the standard's, for a sign bit. */
  lemma HalfValueIsDatum(sign: nat, exponent: nat, fraction: nat)
    requires sign <= 1
    ensures HalfValue(sign, exponent, fraction) == Datum(sign, exponent, fraction)
  {
    var t := fraction as real;
    TrailingWeight(t);
    if exponent == 0 {
      assert EMin == -14;
    } else if exponent != 0x1F {
      assert exponent - Bias == exponent as int - 15;
    }
  }

  /** The polyfill agrees with the standard on every 16-bit word: subnormals
      and zeros, normals, infinities and NaNs. */
  lemma DecodeMatchesBinary16(n: uint16)
    ensures DecodeHalf(n) == Binary16(n)
  {
    FieldsOfWord(n);
    HalfValueIsDatum(S(n), E(n), T(n));
  }

  // ---- Nothing but NaN payloads is lost ----

  /** The encoding with the given fields. */
  function Compose(sign: nat, exponent: nat, fraction: nat): nat
  {
    sign * 0x8000 + exponent * 0x400 + fraction
  }

  /** Words and field triples correspond one to one. */
  lemma ComposeFields(n: uint16)
    ensures S(n) <= 1 && E(n) < 0x20 && T(n) < 0x400
    ensures Compose(S(n), E(n), T(n)) == n
  {
  }

  lemma FieldsOfCompose(sign: nat, exponent: nat, fraction: nat)
    requires sign <= 1 && exponent < 0x20 && fraction < 0x400
    ensures Compose(sign, exponent, fraction) < 0x1_0000
    ensures S(Compose(sign, exponent, fraction)) == sign
    ensures E(Compose(sign, exponent, fraction)) == exponent
    ensures T(Compose(sign, exponent, fraction)) == fraction
  {
    var n := Compose(sign, exponent, fraction);
    ModUnique(n, 0x400, sign * 0x20 + exponent, fraction);
    ModUnique(n / 0x400, 0x20, sign, exponent);
    ModUnique(n, 0x8000, sign, exponent * 0x400 + fraction);
  }

  // ---- Scaling by powers of two ----

  lemma ScaleSucc(e: int, x: real)
    ensures Scale(e + 1, x) == 2.0 * Scale(e, x)
  {
  }

  /** Scaling by 2^a after 2^b is scaling by 2^(a+b). */
  lemma {:induction false} ScaleAdd(a: int, b: int, x: real)
    ensures Scale(a, Scale(b, x)) == Scale(a + b, x)
    decreases if a < 0 then -a else a
  {
    if a > 0 {
      ScaleAdd(a - 1, b, x);
      ScaleSucc(a - 1 + b, x);
    } else if a < 0 {
      ScaleAdd(a + 1, b, x);
      ScaleSucc(a + b, x);
    }
  }

  lemma ScaleTen(y: real)
    ensures Scale(10, y) == 1024.0 * y
  {
    assert Scale(1, y) == 2.0 * y;
    assert Scale(2, y) == 4.0 * y;
    assert Scale(3, y) == 8.0 * y;
    assert Scale(4, y) == 16.0 * y;
    assert Scale(5, y) == 32.0 * y;
    assert Scale(6, y) == 64.0 * y;
    assert Scale(7, y) == 128.0 * y;
    assert Scale(8, y) == 256.0 * y;
    assert Scale(9, y) == 512.0 * y;
  }

  /** The weight of one unit of the trailing significand is 2^(1-p) = 1/1024. */
  lemma TrailingWeight(t: real)
    ensures Scale(1 - Precision, t) == t / 1024.0
  {
    var y := t / 1024.0;
    ScaleTen(y);
    ScaleAdd(-10, 10, y);
  }

  /** n × 2^k, for whole numbers. */
  function IntScale(k: nat, n: nat): nat
  {
    if k == 0 then n else 2 * IntScale(k - 1, n)
  }

  lemma {:induction false} IntScaleAsReal(k: nat, n: nat)
    ensures IntScale(k, n) as real == Scale(k, n as real)
  {
    if k > 0 {
      IntScaleAsReal(k - 1, n);
    }
  }

  /** A finite magnitude in units of 2^-24, the least subnormal. */
  function Units(exponent: nat, fraction: nat): nat
  {
    if exponent == 0 then fraction else IntScale(exponent - 1, 1024 + fraction)
  }

  /** Every finite datum is a whole number of units of 2^-24. */
  lemma MagnitudeInUnits(sign: nat, exponent: nat, fraction: nat)
    requires exponent < 0x1F
    ensures Datum(sign, exponent, fraction).Finite?
    ensures Datum(sign, exponent, fraction).magnitude == Scale(-24, Units(exponent, fraction) as real)
  {
    var f := fraction as real;
    TrailingWeight(f);
    if exponent == 0 {
      assert EMin == -14;
      ScaleAdd(-14, -10, f);
    } else {
      var k: nat := exponent - 1;
      TrailingWeight(1024.0 + f);
      assert 1.0 + Scale(1 - Precision, f) == Scale(-10, 1024.0 + f);
      ScaleAdd(exponent - Bias, -10, 1024.0 + f);
      IntScaleAsReal(k, 1024 + fraction);
      ScaleAdd(-24, k, 1024.0 + f);
    }
  }

  lemma {:induction false} IntScaleMonotone(k: nat, n1: nat, n2: nat)
    requires n1 < n2
    ensures IntScale(k, n1) < IntScale(k, n2)
  {
    if k > 0 {
      IntScaleMonotone(k - 1, n1, n2);
    }
  }

  lemma {:induction false} IntScaleGrows(k1: nat, k2: nat, n: nat)
    requires k1 <= k2
    ensures IntScale(k1, n) <= IntScale(k2, n)
  {
    if k1 < k2 {
      IntScaleGrows(k1, k2 - 1, n);
    }
  }

  lemma {:induction false} IntScaleShift(k: nat, n: nat)
    ensures IntScale(k + 1, n) == IntScale(k, 2 * n)
  {
    if k > 0 {
      IntScaleShift(k - 1, n);
    }
  }

  lemma UnitsLess(e1: nat, f1: nat, e2: nat, f2: nat)
    requires f1 < 0x400 && f2 < 0x400
    requires e1 < e2 || (e1 == e2 && f1 < f2)
    ensures Units(e1, f1) < Units(e2, f2)
  {
    if e1 < e2 {
      UnitsLessByExponent(e1, f1, e2, f2);
    } else if e1 > 0 {
      IntScaleMonotone(e1 - 1, 1024 + f1, 1024 + f2);
    }
  }

  /** Subnormals lie below 2^10 units; normals with biased exponent e lie in
      [1024 × 2^(e-1), 2048 × 2^(e-1)). */
  lemma UnitsLessByExponent(e1: nat, f1: nat, e2: nat, f2: nat)
    requires f1 < 0x400 && f2 < 0x400 && e1 < e2
    ensures Units(e1, f1) < Units(e2, f2)
  {
    IntScaleGrows(0, e2 - 1, 1024 + f2);
    if e1 > 0 {
      IntScaleMonotone(e1 - 1, 1024 + f1, 2048);
      IntScaleShift(e1 - 1, 1024);
      IntScaleGrows(e1, e2 - 1, 1024);
      if f2 > 0 {
        IntScaleMonotone(e2 - 1, 1024, 1024 + f2);
      }
    }
  }

  /** Distinct words that do not decode to NaN decode to distinct values, -0
      and +0 included. */
  lemma DecodeInjective(n1: uint16, n2: uint16)
    requires DecodeHalf(n1) == DecodeHalf(n2) && !DecodeHalf(n1).NaN?
    ensures n1 == n2
  {
    DecodeMatchesBinary16(n1);
    DecodeMatchesBinary16(n2);
    ComposeFields(n1);
    ComposeFields(n2);
    var e1, f1, e2, f2 := E(n1), T(n1), E(n2), T(n2);
    if e1 != 0x1F && e2 != 0x1F {
      MagnitudeInUnits(S(n1), e1, f1);
      MagnitudeInUnits(S(n2), e2, f2);
      ScaleAdd(24, -24, Units(e1, f1) as real);
      ScaleAdd(24, -24, Units(e2, f2) as real);
      assert Units(e1, f1) == Units(e2, f2);
      if e1 < e2 || (e1 == e2 && f1 < f2) {
        UnitsLess(e1, f1, e2, f2);
      } else if e2 < e1 || (e1 == e2 && f2 < f1) {
        UnitsLess(e2, f2, e1, f1);
      }
    }
  }

  // ---- The buffer loop ----

  /** The values of every complete little-endian byte pair, in order. */
  function DecodeHalves(bytes: seq<byte>): seq<Float>
  {
    seq(|bytes| / 2, i requires 0 <= i < |bytes| / 2 => DecodeHalf(Word(bytes, i)))
  }

  /** Little-endian word i of a byte buffer. */
  function Word(bytes: seq<byte>, i: nat): uint16
    requires i < |bytes| / 2
  {
    Uint16LE(bytes[2 * i], bytes[2 * i + 1])
  }

  /** Pair i of a buffer, read with `DataView.getUint16(2 * i, true)`, decodes
      to element i of DecodeHalves. */
  lemma PairDecoded(bytes: seq<byte>, i: nat)
    requires i < |bytes| / 2
    ensures 2 * i + 1 < |bytes|
    ensures DecodeHalves(bytes)[i] == DecodeHalf(Word(bytes, i))
  {
  }

  /** `Float16Array.fromBuffer` (app/SAM2.js:16-34): one binary32 value per
      complete byte pair, in order; a trailing odd byte is ignored, as
      `new Float32Array(byteLength / 2)` truncates the length. */
  method FromBuffer(buffer: array<byte>) returns (float32: array<Float>)
    ensures float32.Length == buffer.Length / 2
    ensures float32[..] == DecodeHalves(buffer[..])
  {
    ghost var bytes := buffer[..];
    float32 := new Float[buffer.Length / 2](_ => Finite(false, 0.0));
    for i := 0 to float32.Length
      invariant forall k :: 0 <= k < i ==> float32[k] == DecodeHalves(bytes)[k]
    {
      PairDecoded(bytes, i);
      var uint16 := Uint16LE(buffer[i * 2], buffer[i * 2 + 1]);
      assert uint16 == Word(bytes, i);
      float32[i] := DecodeHalf(uint16);
    }
  }
}
