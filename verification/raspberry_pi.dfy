/**
 * The arithmetic of the HX711 load-cell driver in `RaspberryPi.py`: the
 * 24-bit two's complement conversion, the bit-by-bit assembly of one
 * conversion, the average and the median of a series, the tara and the
 * readiness test. The GPIO reads and writes, the clock pulses and the
 * sleeps are left out: the levels the data pin shows while the 24 bits
 * are clocked out, whether the ready-wait timed out, and the converted
 * readings of a series are parameters.
 */
module Hx711 {
  import opened Wrappers
  import DataBuffer

  /** 2^24: one conversion is 24 bits wide. */
  const Modulus: int := 0x100_0000

  /** 2^23: the sign bit of a conversion. */
  const SignBit: int := 0x80_0000

  /** The number of bits `readRaw` clocks out. */
  const ConversionBits: nat := 24

  /** The number of readings whose median is the tara. */
  const TaraCount: nat := 10

  function Pow2(n: nat): (p: nat)
    ensures p >= 1
  {
    if n == 0 then 1 else 2 * Pow2(n - 1)
  }

  lemma Pow2Constants()
    ensures Pow2(23) == SignBit && Pow2(24) == Modulus
  {
    assert Pow2(8) == 256;
    assert Pow2(16) == 256 * 256 by { Pow2Add(8, 8); }
    assert Pow2(23) == Pow2(16) * 128 by { Pow2Add(16, 7); }
    assert Pow2(24) == Pow2(16) * 256 by { Pow2Add(16, 8); }
  }

  lemma {:induction false} Pow2Add(a: nat, b: nat)
    ensures Pow2(a + b) == Pow2(a) * Pow2(b)
    decreases b
  {
    if b > 0 {
      Pow2Add(a, b - 1);
      assert Pow2(a + b) == 2 * Pow2(a + b - 1);
    }
  }

  /**
   * `_twos_complement_24bit_to_int`. Masking with `0xFFFFFF` keeps the low
   * 24 bits, which for every Python int, negative ones included, is the
   * remainder modulo 2^24; of a masked value, `& 0x800000` is non-zero
   * exactly when it is at least 2^23, and then 2^24 is subtracted.
   */
  function TwosComplement24(data: int): (r: int)
    ensures -SignBit <= r < SignBit
    ensures r % Modulus == data % Modulus
  {
    var low := data % Modulus;
    if low >= SignBit then low - Modulus else low
  }

  /** The conversion is the identity on the lower half of the 24-bit range and subtracts 2^24 on the upper half. */
  lemma TwosComplementHalves(x: int)
    ensures 0 <= x < SignBit ==> TwosComplement24(x) == x
    ensures SignBit <= x < Modulus ==> TwosComplement24(x) == x - Modulus
  {
  }

  /** Every value in the signed 24-bit range is recovered from its 24-bit pattern. */
  lemma TwosComplementRoundTrip(v: int)
    requires -SignBit <= v < SignBit
    ensures 0 <= v % Modulus < Modulus
    ensures TwosComplement24(v % Modulus) == v
  {
    if v < 0 {
      assert v % Modulus == v + Modulus;
    }
  }

  /** The numeric level of the data pin: low is 0, high is 1. */
  function Bit(b: bool): nat {
    if b then 1 else 0
  }

  /**
   * The value of a bit pattern read most significant bit first: the sum of
   * bit k times 2^(n-1-k).
   */
  function BitsValue(bits: seq<bool>): (v: nat)
    ensures v < Pow2(|bits|)
  {
    if |bits| == 0 then 0 else (if bits[0] then Pow2(|bits| - 1) else 0) + BitsValue(bits[1..])
  }

  /** Shifting left and or-ing in one more bit appends it at the least significant end. */
  lemma {:induction false} BitsValueSnoc(s: seq<bool>, b: bool)
    ensures BitsValue(s + [b]) == 2 * BitsValue(s) + Bit(b)
    decreases |s|
  {
    if |s| == 0 {
      assert [b][1..] == [];
    } else {
      assert (s + [b])[0] == s[0];
      assert (s + [b])[1..] == s[1..] + [b];
      BitsValueSnoc(s[1..], b);
      assert Pow2(|s|) == 2 * Pow2(|s| - 1);
      if s[0] {
        assert BitsValue(s + [b]) == Pow2(|s|) + BitsValue(s[1..] + [b]);
      } else {
        assert BitsValue(s + [b]) == BitsValue(s[1..] + [b]);
      }
    }
  }

  /**
   * The loop of `readRaw`: `dataValue = (dataValue << 1) | bit` for each
   * level in turn. The level is 0 or 1 and the shifted value is even, so
   * the or is an addition.
   */
  method AssembleBits(bits: seq<bool>) returns (value: int)
    ensures value == BitsValue(bits)
    ensures 0 <= value < Pow2(|bits|)
  {
    value := 0;
    var i := 0;
    while i < |bits|
      invariant 0 <= i <= |bits|
      invariant value == BitsValue(bits[..i])
    {
      BitsValueSnoc(bits[..i], bits[i]);
      assert bits[..i + 1] == bits[..i] + [bits[i]];
      value := 2 * value + Bit(bits[i]);
      i := i + 1;
    }
    assert bits[..|bits|] == bits;
  }

  /** The first bit read carries 2^23: it is set exactly when the pattern is in the upper half. */
  lemma SignBitFirst(bits: seq<bool>)
    requires |bits| == ConversionBits
    ensures bits[0] <==> BitsValue(bits) >= SignBit
    ensures BitsValue(bits) < Modulus
  {
    Pow2Constants();
    assert BitsValue(bits) == (if bits[0] then Pow2(23) else 0) + BitsValue(bits[1..]);
    assert BitsValue(bits[1..]) < Pow2(23);
  }

  /**
   * `readRaw`: wake the chip, wait until it is ready (`TimeoutError` when
   * the wait gives up), clock out 24 bits, send the 25th pulse and power
   * down; the pattern is read as a signed number. A reading is negative
   * exactly when the first bit is set.
   */
  method ReadRaw(timedOut: bool, bits: seq<bool>) returns (r: Result<int>)
    requires |bits| == ConversionBits
    ensures timedOut <==> r.Err?
    ensures r.Err? ==> r.error == TimeoutError
    ensures r.Ok? ==> r.value == if bits[0] then BitsValue(bits) - Modulus else BitsValue(bits)
    ensures r.Ok? ==> (r.value < 0 <==> bits[0])
  {
    if timedOut {
      return Err(TimeoutError);
    }
    var raw := AssembleBits(bits);
    SignBitFirst(bits);
    TwosComplementHalves(raw);
    r := Ok(TwosComplement24(raw));
  }

  /** The pattern a value is clocked out as, most significant bit first. */
  function BitsOf(x: nat, n: nat): (bits: seq<bool>)
    requires x < Pow2(n)
    ensures |bits| == n
  {
    if n == 0 then []
    else if x >= Pow2(n - 1) then [true] + BitsOf(x - Pow2(n - 1), n - 1)
    else [false] + BitsOf(x, n - 1)
  }

  /** Reading the bits of a value back gives the value. */
  lemma {:induction false} BitsOfValue(x: nat, n: nat)
    requires x < Pow2(n)
    ensures BitsValue(BitsOf(x, n)) == x
    decreases n
  {
    if n > 0 {
      var bits := BitsOf(x, n);
      if x >= Pow2(n - 1) {
        BitsOfValue(x - Pow2(n - 1), n - 1);
        assert bits[1..] == BitsOf(x - Pow2(n - 1), n - 1);
      } else {
        BitsOfValue(x, n - 1);
        assert bits[1..] == BitsOf(x, n - 1);
      }
    }
  }

  /** A conversion the chip clocks out for any value in the signed 24-bit range reads back as that value. */
  method ReadRawRoundTrip(v: int) returns (r: Result<int>)
    requires -SignBit <= v < SignBit
    ensures r == Ok(v)
  {
    TwosComplementRoundTrip(v);
    Pow2Constants();
    var bits := BitsOf(v % Modulus, ConversionBits);
    BitsOfValue(v % Modulus, ConversionBits);
    r := ReadRaw(false, bits);
    SignBitFirst(bits);
    TwosComplementHalves(v % Modulus);
  }

  function Sum(s: seq<int>): int {
    if |s| == 0 then 0 else s[0] + Sum(s[1..])
  }

  lemma {:induction false} SumBounds(s: seq<int>, lo: int, hi: int)
    requires forall i :: 0 <= i < |s| ==> lo <= s[i] <= hi
    ensures |s| * lo <= Sum(s) <= |s| * hi
    decreases |s|
  {
    if |s| > 0 {
      SumBounds(s[1..], lo, hi);
      assert |s| * lo == lo + (|s| - 1) * lo;
      assert |s| * hi == hi + (|s| - 1) * hi;
    }
  }

  lemma FloorDivBounds(total: int, n: int, lo: int, hi: int)
    requires n > 0 && n * lo <= total <= n * hi
    ensures lo <= total / n <= hi
  {
    var q := total / n;
    assert total == n * q + total % n;
    assert n * lo < n * (q + 1) && n * q <= n * hi;
    MulCancel(n, lo, q + 1);
    MulCancel(n, q, hi + 1);
  }

  lemma MulCancel(n: int, a: int, b: int)
    requires n > 0 && n * a < n * b
    ensures a < b
  {
  }

  /**
   * `readAverage(count)` on the `count` readings it took: the sum floored
   * by `//`. Without readings the loop never binds `avg`, and the return
   * raises `UnboundLocalError`.
   */
  function ReadAverage(readings: seq<int>): (r: Result<int>)
    ensures |readings| == 0 <==> r == Err(UnboundLocalError)
    ensures r.Ok? ==> |readings| * r.value <= Sum(readings) < |readings| * (r.value + 1)
  {
    if |readings| == 0 then Err(UnboundLocalError) else Ok(Sum(readings) / |readings|)
  }

  /** The average lies between the smallest and the largest reading. */
  lemma AverageBetween(readings: seq<int>, lo: int, hi: int)
    requires |readings| > 0
    requires forall i :: 0 <= i < |readings| ==> lo <= readings[i] <= hi
    ensures ReadAverage(readings).Ok?
    ensures lo <= ReadAverage(readings).value <= hi
  {
    SumBounds(readings, lo, hi);
    FloorDivBounds(Sum(readings), |readings|, lo, hi);
  }

  predicate Ascending(s: seq<int>) {
    forall i, j :: 0 <= i < j < |s| ==> s[i] <= s[j]
  }

  /** One step of insertion: `x` goes before the first element not smaller than it. */
  function Insert(x: int, s: seq<int>): (r: seq<int>)
    requires Ascending(s)
    ensures Ascending(r)
    ensures multiset(r) == multiset(s) + multiset{x}
    decreases |s|
  {
    if |s| == 0 then [x]
    else if x <= s[0] then [x] + s
    else
      var rest := Insert(x, s[1..]);
      assert s == [s[0]] + s[1..];
      BoundedBelow(rest, s[1..], x, s[0]);
      [s[0]] + rest
  }

  /** Every element of `t` and `x` itself are at least `lo`, so every element of a rearrangement of them is too. */
  lemma BoundedBelow(r: seq<int>, t: seq<int>, x: int, lo: int)
    requires multiset(r) == multiset(t) + multiset{x}
    requires lo <= x && forall k :: 0 <= k < |t| ==> lo <= t[k]
    ensures forall k :: 0 <= k < |r| ==> lo <= r[k]
  {
    forall k | 0 <= k < |r|
      ensures lo <= r[k]
    {
      assert r[k] in multiset(r);
      if r[k] != x {
        assert r[k] in multiset(t);
        var j :| 0 <= j < |t| && t[j] == r[k];
      }
    }
  }

  /** `sorted(values)`: the readings in ascending order. */
  function Sort(s: seq<int>): (r: seq<int>)
    ensures Ascending(r)
    ensures multiset(r) == multiset(s)
    ensures |r| == |s|
  {
    if |s| == 0 then []
    else
      LastSplit(s);
      Insert(s[|s| - 1], Sort(s[..|s| - 1]))
  }

  lemma LastSplit(s: seq<int>)
    requires |s| > 0
    ensures multiset(s) == multiset(s[..|s| - 1]) + multiset{s[|s| - 1]}
  {
    assert s == s[..|s| - 1] + [s[|s| - 1]];
  }

  lemma FirstSplit(s: seq<int>)
    requires |s| > 0
    ensures multiset(s[1..]) == multiset(s) - multiset{s[0]}
    ensures s == [s[0]] + s[1..]
  {
    assert s == [s[0]] + s[1..];
  }

  lemma AscendingTail(s: seq<int>)
    requires |s| > 0 && Ascending(s)
    ensures Ascending(s[1..])
  {
    forall i, j | 0 <= i < j < |s| - 1
      ensures s[1..][i] <= s[1..][j]
    {
      assert s[1..][i] == s[i + 1] && s[1..][j] == s[j + 1];
    }
  }

  /** The first element of an ascending sequence is at most any of its elements. */
  lemma FirstLeast(s: seq<int>, v: int)
    requires Ascending(s) && v in multiset(s)
    ensures |s| > 0 && s[0] <= v
  {
    var j :| 0 <= j < |s| && s[j] == v;
  }

  /** Two ascending sequences with the same elements are equal. */
  lemma {:induction false} AscendingUnique(a: seq<int>, b: seq<int>)
    requires Ascending(a) && Ascending(b) && multiset(a) == multiset(b)
    ensures a == b
    decreases |a|
  {
    assert |a| == |multiset(a)| == |multiset(b)| == |b|;
    if |a| > 0 {
      FirstLeast(b, a[0]);
      FirstLeast(a, b[0]);
      FirstSplit(a);
      FirstSplit(b);
      AscendingTail(a);
      AscendingTail(b);
      assert a[0] == b[0];
      assert multiset(a[1..]) == multiset(b[1..]);
      AscendingUnique(a[1..], b[1..]);
    }
  }

  /** The element `sorted(values)[len(values) // 2]`: for an even count, the upper of the two middle ones. */
  function Median(s: seq<int>): (m: int)
    requires |s| > 0
    ensures m in multiset(s)
  {
    var sorted := Sort(s);
    assert sorted[|s| / 2] in multiset(sorted);
    sorted[|s| / 2]
  }

  /**
   * `readMedian(count)` on the `count` readings it took. The loop recomputes
   * the median after every reading; the value returned is the last one, the
   * median of all of them. Without readings it raises `UnboundLocalError`.
   */
  function ReadMedian(readings: seq<int>): (r: Result<int>)
    ensures |readings| == 0 <==> r == Err(UnboundLocalError)
    ensures r.Ok? ==> r.value in multiset(readings)
  {
    if |readings| == 0 then Err(UnboundLocalError) else Ok(Median(readings))
  }

  /** The median does not depend on the order the readings arrived in. */
  lemma MedianOrderFree(a: seq<int>, b: seq<int>)
    requires multiset(a) == multiset(b)
    ensures ReadMedian(a) == ReadMedian(b)
  {
    assert |a| == |multiset(a)| == |multiset(b)| == |b|;
    if |a| > 0 {
      AscendingUnique(Sort(a), Sort(b));
    }
  }

  /** Of readings already in ascending order, the median is the middle one (the upper middle for an even count). */
  lemma MedianOfAscending(s: seq<int>)
    requires |s| > 0 && Ascending(s)
    ensures ReadMedian(s) == Ok(s[|s| / 2])
  {
    AscendingUnique(Sort(s), s);
  }

  /** `_measure_tara`: the median of ten readings, as an int. */
  function Tara(readings: seq<int>): (r: Result<int>)
    requires |readings| == TaraCount
    ensures r.Ok? && r.value in multiset(readings)
    ensures r.value == Sort(readings)[5]
  {
    assert |readings| / 2 == 5;
    ReadMedian(readings)
  }

  /**
   * `_is_ready`: the data pin's buffer holds at least one sample and the
   * newest sample's level is 0.
   */
  function IsReady(d: DataBuffer.Data): (ready: bool)
    ensures ready ==> DataBuffer.Count(d) > 0
  {
    if DataBuffer.Count(d) > 0 then DataBuffer.GetLast(d).value.value == 0.0 else false
  }

  /** After the pin reports a level, the chip reads as ready exactly when that level is low. */
  lemma ReadyAfterLevel(d: DataBuffer.Data, level: real, now: int)
    ensures IsReady(DataBuffer.AddValue(d, level, now)) <==> level == 0.0
  {
  }

  /** A pin that has reported nothing, or whose buffer was cleared, is never ready. */
  lemma NotReadyWhenEmpty(d: DataBuffer.Data)
    ensures !IsReady(DataBuffer.New())
    ensures !IsReady(DataBuffer.Clear(d))
  {
  }
}

/**
 * `Module_RPI_ServoMotor.write`: the percentage of the servo's travel
 * mapped to a pulse width in microseconds, 0 % to 1000 us and 100 % to
 * 2000 us. The percentage is a real number; the rounding of the floating
 * point expression is not modelled.
 */
module Servo {

  import PyText

  const MinPulse: int := 1000
  const MaxPulse: int := 2000

  /** `int(1000 + (2000 - 1000) * percentage / 100)`. */
  function PulseWidth(percentage: real): (w: int)
    ensures 0.0 <= percentage ==> MinPulse <= w
    ensures percentage <= 100.0 ==> w <= MaxPulse
  {
    PyText.Trunc(MinPulse as real + (MaxPulse - MinPulse) as real * percentage / 100.0)
  }

  /** Every percentage from 0 to 100 gives a width from 1000 to 2000 us, the ends exactly. */
  lemma PulseWidthRange(p: real)
    requires 0.0 <= p <= 100.0
    ensures MinPulse <= PulseWidth(p) <= MaxPulse
    ensures p == 0.0 ==> PulseWidth(p) == MinPulse
    ensures p == 100.0 ==> PulseWidth(p) == MaxPulse
  {
  }

  /** A whole percentage in range moves the pulse by exactly 10 us per percent. */
  lemma PulseWidthWhole(k: int)
    requires 0 <= k <= 100
    ensures PulseWidth(k as real) == MinPulse + 10 * k
  {
    assert (MinPulse + 10 * k) as real == MinPulse as real + (MaxPulse - MinPulse) as real * (k as real) / 100.0;
  }

  /** Truncation toward zero never reverses an order. */
  lemma TruncateMonotone(x: real, y: real)
    requires x <= y
    ensures PyText.Trunc(x) <= PyText.Trunc(y)
  {
    if x < 0.0 && y >= 0.0 {
      assert PyText.Trunc(x) <= 0;
    }
  }

  /** A larger percentage never gives a shorter pulse. */
  lemma PulseWidthMonotone(p: real, q: real)
    requires p <= q
    ensures PulseWidth(p) <= PulseWidth(q)
  {
    var x := MinPulse as real + (MaxPulse - MinPulse) as real * p / 100.0;
    var y := MinPulse as real + (MaxPulse - MinPulse) as real * q / 100.0;
    assert x <= y by {
      assert (MaxPulse - MinPulse) as real * p <= (MaxPulse - MinPulse) as real * q;
    }
    TruncateMonotone(x, y);
  }
}
