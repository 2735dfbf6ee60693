/** The night-vision gain cycle driven by the toggle key, and the alert text
    that reports the new gain. */
module NightVision {
  import opened Decimal

  /** The gain after one toggle: the post-increment of the gain, reset to zero
      when the value before the increment was `nvMax`. */
  function NextGain(gain: int, nvMax: int): (g: int)
    ensures 0 <= gain <= nvMax ==> g == (gain + 1) % (nvMax + 1)
    ensures 0 <= gain <= nvMax ==> 0 <= g <= nvMax
    ensures gain > nvMax ==> g == gain + 1
    ensures gain < 0 && gain != nvMax ==> g == gain + 1
    ensures gain == nvMax ==> g == 0
  {
    if gain == nvMax then 0 else gain + 1
  }

  /** The gain after `n` toggles starting from `gain`. */
  function Toggled(gain: int, nvMax: int, n: nat): (g: int)
    decreases n
  {
    if n == 0 then gain else Toggled(NextGain(gain, nvMax), nvMax, n - 1)
  }

  /** Toggling `a + b` times is toggling `a` times, then `b` times. */
  lemma {:induction false} ToggledAdd(gain: int, nvMax: int, a: nat, b: nat)
    ensures Toggled(gain, nvMax, a + b) == Toggled(Toggled(gain, nvMax, a), nvMax, b)
    decreases a
  {
    if a > 0 {
      ToggledAdd(NextGain(gain, nvMax), nvMax, a - 1, b);
    }
  }

  /** Any number of toggles keeps an in-range gain in `[0, nvMax]`. */
  lemma {:induction false} ToggledInRange(gain: int, nvMax: int, n: nat)
    requires 0 <= gain <= nvMax
    ensures 0 <= Toggled(gain, nvMax, n) <= nvMax
    decreases n
  {
    if n > 0 {
      ToggledInRange(NextGain(gain, nvMax), nvMax, n - 1);
    }
  }

  /** Below the maximum, each toggle adds one, whatever the starting gain. */
  lemma {:induction false} ToggledClimbs(gain: int, nvMax: int, n: nat)
    requires gain + n <= nvMax
    ensures Toggled(gain, nvMax, n) == gain + n
    decreases n
  {
    if n > 0 {
      ToggledClimbs(gain + 1, nvMax, n - 1);
    }
  }

  /** A gain above the maximum is never wrapped: it keeps counting up. */
  lemma {:induction false} ToggledAboveMax(gain: int, nvMax: int, n: nat)
    requires gain > nvMax
    ensures Toggled(gain, nvMax, n) == gain + n
    decreases n
  {
    if n > 0 {
      ToggledAboveMax(gain + 1, nvMax, n - 1);
    }
  }

  /** From an in-range gain `g`, the gain is back to 0 after `nvMax - g + 1`
      toggles. */
  lemma ToggledReachesZero(gain: int, nvMax: int)
    requires 0 <= gain <= nvMax
    ensures Toggled(gain, nvMax, nvMax - gain + 1) == 0
  {
    ToggledAdd(gain, nvMax, nvMax - gain, 1);
    ToggledClimbs(gain, nvMax, nvMax - gain);
  }

  /** The toggle cycles through `[0, nvMax]` with period exactly `nvMax + 1`:
      `nvMax + 1` toggles return to the starting gain, and no fewer do. */
  lemma ToggleCycle(gain: int, nvMax: int, n: nat)
    requires 0 <= gain <= nvMax
    ensures Toggled(gain, nvMax, nvMax + 1) == gain
    ensures 0 < n <= nvMax ==> Toggled(gain, nvMax, n) != gain
  {
    var up := nvMax - gain + 1;
    ToggledReachesZero(gain, nvMax);
    ToggledAdd(gain, nvMax, up, gain);
    ToggledClimbs(0, nvMax, gain);
    if 0 < n <= nvMax {
      if n < up {
        ToggledClimbs(gain, nvMax, n);
      } else {
        ToggledAdd(gain, nvMax, up, n - up);
        ToggledClimbs(0, nvMax, n - up);
      }
    }
  }

  const NV_DISABLED := "NV Disabled"
  const NV_ENABLED := "NV Enabled"
  const NV_GAIN_PREFIX := "NV Gain + "

  /** The informational alert raised after a toggle, for the new gain. */
  function AlertText(gain: int): (t: string)
    ensures t == NV_DISABLED <==> gain == 0
    ensures t == NV_ENABLED <==> gain == 1
    ensures gain != 0 && gain != 1 ==> |t| > |NV_GAIN_PREFIX| && t[..|NV_GAIN_PREFIX|] == NV_GAIN_PREFIX
  {
    if gain == 0 then NV_DISABLED
    else if gain == 1 then NV_ENABLED
    else
      var t := NV_GAIN_PREFIX + FormatInt(gain - 1);
      // "NV Gain + " differs from "NV Disabled" and "NV Enabled" at index 3
      assert t[3] == 'G' && NV_DISABLED[3] == 'D' && NV_ENABLED[3] == 'E';
      t
  }

  /** For a gain other than 0 and 1, the alert is the gain prefix followed by
      a decimal number that reads back as `gain - 1`. */
  lemma AlertTextGain(gain: int)
    requires gain != 0 && gain != 1
    ensures |AlertText(gain)| > |NV_GAIN_PREFIX|
    ensures AlertText(gain)[..|NV_GAIN_PREFIX|] == NV_GAIN_PREFIX
    ensures var rest := AlertText(gain)[|NV_GAIN_PREFIX|..];
            |rest| >= 1 && (rest[0] == '-' ==> AllDigits(rest[1..])) && (rest[0] != '-' ==> AllDigits(rest))
            && ParseInt(rest) == gain - 1
    ensures AlertText(gain)[|NV_GAIN_PREFIX|..] == FormatInt(gain - 1)
  {
    var t := AlertText(gain);
    assert t[|NV_GAIN_PREFIX|..] == FormatInt(gain - 1);
    FormatIntRoundTrip(gain - 1);
  }

  /** The alert text determines the gain: different gains give different texts. */
  lemma AlertTextInjective(a: int, b: int)
    requires AlertText(a) == AlertText(b)
    ensures a == b
  {
    if a != 0 && a != 1 && b != 0 && b != 1 {
      AlertTextGain(a);
      AlertTextGain(b);
    }
  }
}
