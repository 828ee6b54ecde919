/**
 * The two indicator LEDs and the blink task's delay. Each blink flips led1
 * and drives led2 to the opposite of the new led1; the firmware variants
 * differ only in the delay after which the task re-arms itself.
 */
module Indicator {
  import opened Machine

  datatype LedPair = LedPair(led1: bool, led2: bool)

  /** One blink: led1 flips and led2 takes the opposite level. */
  function Toggle(p: LedPair): (q: LedPair)
    ensures q.led1 == !p.led1 && q.led2 == !q.led1
  {
    if p.led1 then LedPair(false, true) else LedPair(true, false)
  }

  /** The LEDs after `n` blinks from the power-on state, both low. */
  function AfterBlinks(n: nat): LedPair {
    if n == 0 then LedPair(false, false) else Toggle(AfterBlinks(n - 1))
  }

  /** After at least one blink the LEDs differ, and led1 is high after an odd number of blinks. */
  lemma {:induction false} BlinksAlternate(n: nat)
    requires n >= 1
    ensures AfterBlinks(n).led1 != AfterBlinks(n).led2
    ensures AfterBlinks(n).led1 <==> n % 2 == 1
  {
    if n > 1 {
      BlinksAlternate(n - 1);
    }
  }

  class Leds {
    var led1: bool
    var led2: bool

    /** Both pins are configured as outputs driven low. */
    constructor ()
      ensures !led1 && !led2
    {
      led1, led2 := false, false;
    }

    function Pair(): LedPair
      reads this
    {
      LedPair(led1, led2)
    }

    method Blink()
      modifies this
      ensures Pair() == Toggle(old(Pair()))
    {
      if led1 {
        led1 := false;
        led2 := true;
      } else {
        led1 := true;
        led2 := false;
      }
    }
  }

  /**
   * The re-arm delay, in ms, of the blink task whose shared rate cell holds
   * `freq`: 1000 / (freq + 1) in u32 arithmetic, where freq + 1 <= 256
   * neither overflows nor is zero. It is the floor of the quotient.
   */
  function BlinkDelay(freq: u8): (ms: nat)
    ensures ms * (freq + 1) <= 1000 < (ms + 1) * (freq + 1)
    ensures 3 <= ms <= 1000
  {
    1000 / (freq + 1)
  }

  lemma BlinkDelayExamples()
    ensures BlinkDelay(0) == 1000 && BlinkDelay(3) == 250 && BlinkDelay(255) == 3
  {
  }

  /** A higher rate never gives a longer delay. */
  lemma BlinkDelayAntitone(f: u8, g: u8)
    requires f <= g
    ensures BlinkDelay(g) <= BlinkDelay(f)
  {
    var df, dg := BlinkDelay(f), BlinkDelay(g);
    MulMonotone(df + 1, f + 1, g + 1);
    assert (g + 1) * dg <= 1000 < (df + 1) * (f + 1);
    MulCancel(g + 1, dg, df + 1);
  }
}
