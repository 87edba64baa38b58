/** The integer side of the price display in frontend/src/FareResults.js:
    the 32-bit FNV-1a hash that seeds the cosmetic jitter, the rounding step
    and rounding to it, the order of the two ends of a price range and the
    lower bound on the shown arrival time. Strings here are the UTF-16 code
    units that `charCodeAt` reads. */
module PriceDisplay {

  import opened Rounding

  // ---------------------------------------------------------------
  // 32-bit FNV-1a (draft-eastlake-fnv)
  // ---------------------------------------------------------------

  /** The 32-bit offset basis, 2166136261. */
  const FNV_OFFSET_BASIS: bv32 := 0x811C_9DC5

  /** The 32-bit FNV prime, 16777619. */
  const FNV_PRIME: bv32 := 0x0100_0193

  /** `Math.imul`: the low 32 bits of the product. */
  function Imul(a: bv32, b: bv32): bv32
  {
    a * b
  }

  /** One round: xor in the code unit, then multiply by the prime modulo 2^32
      (`>>> 0` at the end reads the 32 bits as unsigned, which `bv32` is). */
  function FnvStep(h: bv32, unit: bv16): bv32
  {
    Imul(h ^ (unit as bv32), FNV_PRIME)
  }

  /** The state after folding the code units in, first to last, from `h`. */
  function FnvFrom(h: bv32, units: seq<bv16>): bv32
    decreases |units|
  {
    if units == [] then h else FnvFrom(FnvStep(h, units[0]), units[1..])
  }

  /** The 32-bit FNV-1a state of a string: the offset basis for the empty
      string, and one more round on the state of all but the last unit. */
  function Fnv1a(units: seq<bv16>): (h: bv32)
    ensures units == [] ==> h == FNV_OFFSET_BASIS
    ensures units != [] ==> h == FnvStep(FnvFrom(FNV_OFFSET_BASIS, units[..|units| - 1]), units[|units| - 1])
  {
    if units == [] then FNV_OFFSET_BASIS
    else
      var n := |units| - 1;
      assert units == units[..n] + [units[n]];
      FnvFromAppend(FNV_OFFSET_BASIS, units[..n], [units[n]]);
      FnvFrom(FNV_OFFSET_BASIS, units)
  }

  /** Hashing a concatenation continues from the state the first part left. */
  lemma {:induction false} FnvFromAppend(h: bv32, a: seq<bv16>, b: seq<bv16>)
    ensures FnvFrom(h, a + b) == FnvFrom(FnvFrom(h, a), b)
    decreases |a|
  {
    if a == [] {
      assert a + b == b;
    } else {
      assert (a + b)[1..] == a[1..] + b;
      FnvFromAppend(FnvStep(h, a[0]), a[1..], b);
    }
  }

  /** The loop of `hashStringTo01`, up to the final division. */
  method HashState(units: seq<bv16>) returns (h: bv32)
    ensures h == Fnv1a(units)
  {
    h := FNV_OFFSET_BASIS;
    var i := 0;
    while i < |units|
      invariant 0 <= i <= |units|
      invariant FnvFrom(h, units[i..]) == Fnv1a(units)
    {
      assert units[i..][1..] == units[i + 1..];
      h := FnvStep(h, units[i]);
      i := i + 1;
    }
  }

  /** The test vectors for the empty string, "a" and "foobar". */
  lemma FnvTestVectors()
    ensures Fnv1a([]) == 0x811C_9DC5
    ensures Fnv1a([0x61]) == 0xE40C_292C
    ensures Fnv1a([0x66, 0x6F, 0x6F, 0x62, 0x61, 0x72]) == 0xBF9C_F968
  {
  }

  /** `hashStringTo01`: the state divided by 2^32 - 1, a number in [0, 1]. */
  function HashTo01(units: seq<bv16>): (r: real)
    ensures 0.0 <= r <= 1.0
  {
    (Fnv1a(units) as int) as real / 4294967295.0
  }

  // ---------------------------------------------------------------
  // Rounding for display
  // ---------------------------------------------------------------

  /** The rounding step of a displayed price. */
  function PriceStep(price: real): (step: nat)
    ensures step == 5 || step == 10 || step == 20
    ensures step == 5 <==> price < 200.0
    ensures step == 20 <==> price >= 600.0
  {
    if price < 200.0 then 5 else if price < 600.0 then 10 else 20
  }

  /** Dearer prices are never shown with a finer step. */
  lemma PriceStepMonotone(p: real, q: real)
    requires p <= q
    ensures PriceStep(p) <= PriceStep(q)
  {
  }

  /** `roundToNearest`: the multiple of `step` nearest to `value`, ties up.
      Measured in steps, the result is a whole number less than half a step
      below `value` and at most half a step above it (ties go up). */
  function RoundToNearest(value: real, step: nat): (r: real)
    requires step > 0
    ensures (r / step as real).Floor as real == r / step as real
    ensures value / step as real - 0.5 < r / step as real <= value / step as real + 0.5
  {
    var k := step as real;
    var n := RoundHalfUp(value / k);
    assert (n as real * k) / k == n as real;
    n as real * k
  }

  /** The two ends of a displayed range, the smaller first. */
  function RangeEnds(low: real, high: real): (ends: (real, real))
    ensures ends.0 <= ends.1
    ensures ends == (low, high) || ends == (high, low)
  {
    (if low < high then low else high, if low > high then low else high)
  }

  /** `etaMin`: the rounded trip time with its jitter, never below 2 minutes. */
  function EtaMinutes(durationMin: real, jitter01: real): (eta: int)
    ensures eta >= 2
    ensures eta == 2 || eta == RoundHalfUp(durationMin + (jitter01 * 6.0 - 2.0))
    ensures eta >= RoundHalfUp(durationMin + (jitter01 * 6.0 - 2.0))
  {
    var rounded := RoundHalfUp(durationMin + (jitter01 * 6.0 - 2.0));
    if 2 > rounded then 2 else rounded
  }
}
