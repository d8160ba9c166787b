/** The arithmetic of one integration step, shared by the three controllers:
    the update of the internal state m under each law, the low-pass filter of
    the current-integral controller, and the write of the conductance update
    into a channel or a synapse. Lemmas state the properties each piece keeps. */
module Laws {
  import opened Values

  /** gmax is expressed in units 1e3 times those of m: a synapse's regulated
      value is scaled by 1e-3 when compared with m and by 1e3 when updated. */
  const SynapseScale: real := 0.001
  const SynapseGain: real := 1000.0

  /** Integral law: m moves by rate * error, then is clamped at zero. */
  function ProportionalLaw(m: real, rate: real, error: real): (r: real)
    ensures r >= 0.0
    ensures m + rate * error >= 0.0 ==> r == m + rate * error
    ensures m + rate * error < 0.0 ==> r == 0.0
  {
    ClampAtZero(m + rate * error)
  }

  /** Bang-bang law: m moves by +rate when the error is positive and by
      -rate otherwise (a zero error counts as not positive), then is clamped. */
  function SignLaw(m: real, rate: real, error: real): (r: real)
    ensures r >= 0.0
    ensures error > 0.0 && m + rate >= 0.0 ==> r == m + rate
    ensures error > 0.0 && m + rate < 0.0 ==> r == 0.0
    ensures error <= 0.0 && m - rate >= 0.0 ==> r == m - rate
    ensures error <= 0.0 && m - rate < 0.0 ==> r == 0.0
    ensures rate >= 0.0 && error > 0.0 ==> r >= m
    ensures rate >= 0.0 && error <= 0.0 && m >= 0.0 ==> r <= m
  {
    ClampAtZero(if error > 0.0 then m + rate else m - rate)
  }

  /** One explicit-Euler step of the first-order low-pass filter with
      gain k = dt/tau_filter. */
  function FilterStep(smooth: real, input: real, k: real): (r: real)
    ensures r - input == (1.0 - k) * (smooth - input)
  {
    smooth + k * (input - smooth)
  }

  /** The filter run n times on a constant input. */
  function FilterIterate(smooth: real, input: real, k: real, n: nat): real
  {
    if n == 0 then smooth else FilterStep(FilterIterate(smooth, input, k, n - 1), input, k)
  }

  function Pow(x: real, n: nat): real
  {
    if n == 0 then 1.0 else x * Pow(x, n - 1)
  }

  /** Channel write: gdot = rg * (m - gbar * area) is compared with
      gbar_next unscaled but added divided by the area. */
  function ChannelWrite(gbar: real, gbarNext: real, area: real, m: real, rg: real): (r: real)
    requires area != 0.0
    ensures gbarNext + rg * (m - gbar * area) < 0.0 ==> r == 0.0
    ensures gbarNext + rg * (m - gbar * area) >= 0.0 ==> (r - gbarNext) * area == rg * (m - gbar * area)
  {
    var gdot := rg * (m - gbar * area);
    if gbarNext + gdot < 0.0 then 0.0 else gbarNext + gdot / area
  }

  /** Synapse write: gdot = rg * (m - 1e-3 * gmax), applied as 1e3 * gdot
      with a clamp at zero. */
  function SynapseWrite(gmax: real, m: real, rg: real): (r: real)
    ensures r >= 0.0
    ensures r == 0.0 || r - gmax == SynapseGain * rg * (m - SynapseScale * gmax)
    ensures r >= gmax + SynapseGain * rg * (m - SynapseScale * gmax)
  {
    var gdot := rg * (m - gmax * SynapseScale);
    if gmax + gdot * SynapseGain < 0.0 then 0.0 else gmax + gdot * SynapseGain
  }

  // ---------------------------------------------------------------------
  // Integral law

  /** With a non-negative rate, a larger error never yields a smaller m. */
  lemma ProportionalMonotone(m: real, rate: real, e1: real, e2: real)
    requires rate >= 0.0 && e1 <= e2
    ensures ProportionalLaw(m, rate, e1) <= ProportionalLaw(m, rate, e2)
  {
    assert rate * e2 - rate * e1 == rate * (e2 - e1);
    assert rate * (e2 - e1) >= 0.0;
  }

  /** A zero error leaves a non-negative m where it is, whatever the rate. */
  lemma ProportionalRestsAtZeroError(m: real, rate: real)
    requires m >= 0.0
    ensures ProportionalLaw(m, rate, 0.0) == m
  {
  }

  /** dt = 1, tau_m = 4 and an error of 2 raise m by exactly 0.5. */
  lemma ProportionalExample(m: real)
    requires m >= 0.0
    ensures ProportionalLaw(m, Rate(1.0, Finite(4.0)), 2.0) == m + 0.5
  {
  }

  // ---------------------------------------------------------------------
  // Bang-bang law

  /** Only the sign of the error matters: two errors that are both positive,
      or both non-positive, give the same m. */
  lemma SignIgnoresMagnitude(m: real, rate: real, e1: real, e2: real)
    requires (e1 > 0.0) == (e2 > 0.0)
    ensures SignLaw(m, rate, e1) == SignLaw(m, rate, e2)
  {
  }

  /** dt = 1 and tau_m = 10: an error of +5 raises m by exactly 0.1, an
      error of -5 lowers it by 0.1 with the clamp at zero, and an error of
      exactly 0 behaves like -5. */
  lemma SignExample(m: real)
    requires m >= 0.0
    ensures SignLaw(m, Rate(1.0, Finite(10.0)), 5.0) == m + 0.1
    ensures SignLaw(m, Rate(1.0, Finite(10.0)), -5.0) == (if m < 0.1 then 0.0 else m - 0.1)
    ensures SignLaw(m, Rate(1.0, Finite(10.0)), 0.0) == SignLaw(m, Rate(1.0, Finite(10.0)), -5.0)
  {
  }

  // ---------------------------------------------------------------------
  // Low-pass filter

  /** For 0 < k <= 1 the new value lies between the old value and the input. */
  lemma FilterBetween(smooth: real, input: real, k: real)
    requires 0.0 < k <= 1.0
    ensures smooth <= input ==> smooth <= FilterStep(smooth, input, k) <= input
    ensures input <= smooth ==> input <= FilterStep(smooth, input, k) <= smooth
  {
    var d := input - smooth;
    assert FilterStep(smooth, input, k) == smooth + k * d;
    if d >= 0.0 {
      assert 0.0 <= k * d <= d;
    } else {
      assert d <= k * d <= 0.0;
    }
  }

  /** After n steps on a constant input the distance to it is (1 - k)^n
      times the initial distance. */
  lemma {:induction false} FilterIterateGap(smooth: real, input: real, k: real, n: nat)
    ensures FilterIterate(smooth, input, k, n) - input == Pow(1.0 - k, n) * (smooth - input)
  {
    if n > 0 {
      var prev := FilterIterate(smooth, input, k, n - 1);
      FilterIterateGap(smooth, input, k, n - 1);
      var a, p, d := 1.0 - k, Pow(1.0 - k, n - 1), smooth - input;
      assert FilterIterate(smooth, input, k, n) - input == a * (p * d);
      assert a * (p * d) == (a * p) * d;
      assert Pow(1.0 - k, n) == a * p;
    }
  }

  /** For 0 < k <= 1 the filter approaches a constant input monotonically:
      every iterate stays on the side of the input it started on, and never
      moves farther from the input than the one before it. */
  lemma {:induction false} FilterApproaches(smooth: real, input: real, k: real, n: nat)
    requires 0.0 < k <= 1.0
    ensures smooth <= input ==>
      FilterIterate(smooth, input, k, n) <= FilterIterate(smooth, input, k, n + 1) <= input
    ensures input <= smooth ==>
      input <= FilterIterate(smooth, input, k, n + 1) <= FilterIterate(smooth, input, k, n)
  {
    if n > 0 {
      FilterApproaches(smooth, input, k, n - 1);
    }
    FilterBetween(FilterIterate(smooth, input, k, n), input, k);
  }

  // ---------------------------------------------------------------------
  // Write stage

  /** At equilibrium, m = gbar * area, gdot is zero and a non-negative
      gbar_next is left as it is. */
  lemma ChannelWriteEquilibrium(gbar: real, gbarNext: real, area: real, m: real, rg: real)
    requires area != 0.0 && m == gbar * area && gbarNext >= 0.0
    ensures ChannelWrite(gbar, gbarNext, area, m, rg) == gbarNext
  {
  }

  /** The clamp keeps gbar_next non-negative only when the area is at least
      1: then gdot / area is no further below zero than gdot itself. */
  lemma ChannelWriteNonNegative(gbar: real, gbarNext: real, area: real, m: real, rg: real)
    requires area >= 1.0 && gbarNext >= 0.0
    ensures ChannelWrite(gbar, gbarNext, area, m, rg) >= 0.0
  {
    var gdot := rg * (m - gbar * area);
    if gbarNext + gdot >= 0.0 {
      var q := gdot / area;
      assert q * area == gdot;
      if gdot < 0.0 {
        assert q < 0.0;
        assert q * area <= q * 1.0;
        assert q >= gdot;
      } else {
        assert q >= 0.0;
      }
    }
  }

  /** For every area strictly between 0 and 1 the clamp lets a negative
      gbar_next through: gbar_next = 1, m = 0, rate 1 and gbar = 1 / area
      give gdot = -1, which passes the test gbar_next + gdot >= 0 and is then
      added as -1 / area < -1. */
  lemma ChannelWriteCanGoNegative(area: real)
    requires 0.0 < area < 1.0
    ensures ChannelWrite(1.0 / area, 1.0, area, 0.0, 1.0) < 0.0
  {
    var g := 1.0 / area;
    assert g * area == 1.0;
    assert g > 1.0;
  }

  /** At equilibrium, m = 1e-3 * gmax with m non-negative, gmax is left as it is. */
  lemma SynapseWriteEquilibrium(gmax: real, m: real, rg: real)
    requires m >= 0.0 && m == SynapseScale * gmax
    ensures SynapseWrite(gmax, m, rg) == gmax
  {
  }
}
