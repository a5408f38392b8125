/**
 * The frequency label's out-of-band warning (update_display and
 * blink_frequency): a frequency inside the band plan shows steady red; one
 * outside makes the label alternate between black and red every 500 ms.
 */
module Display {
  import opened Digits
  import opened Bandplan

  datatype Colour = Black | Red

  /** One blink step: black turns red, anything else turns black. */
  function Toggle(c: Colour): (d: Colour)
    ensures d != c
  {
    if c == Black then Red else Black
  }

  lemma ToggleTwice(c: Colour)
    ensures Toggle(Toggle(c)) == c
  {
  }

  /**
   * The label's foreground colour, the is_blinking flag, and how many
   * blink_frequency callbacks are scheduled on the UI loop and not yet run.
   */
  class FrequencyLabel {
    var isBlinking: bool
    var colour: Colour
    var pendingTicks: nat

    /** Whenever the flag is up, a blink callback is waiting to run. */
    ghost predicate Animated()
      reads this
    {
      isBlinking ==> pendingTicks >= 1
    }

    /** At most one blink chain: one pending callback while blinking, none otherwise. */
    ghost predicate SingleChain()
      reads this
    {
      pendingTicks == if isBlinking then 1 else 0
    }

    /** The flag starts down and the label is created red. */
    constructor ()
      ensures !isBlinking && colour == Red && pendingTicks == 0
      ensures Animated() && SingleChain()
    {
      isBlinking, colour, pendingTicks := false, Red, 0;
    }

    /** blink_frequency: while the flag is up, swap the colour and schedule the next call. */
    method BlinkFrequency()
      modifies this
      ensures isBlinking == old(isBlinking)
      ensures isBlinking ==> colour == Toggle(old(colour)) && pendingTicks == old(pendingTicks) + 1
      ensures !isBlinking ==> colour == old(colour) && pendingTicks == old(pendingTicks)
    {
      if isBlinking {
        colour := Toggle(colour);
        pendingTicks := pendingTicks + 1;
      }
    }

    /** A scheduled callback runs: it is no longer pending, and blinks if the flag is still up. */
    method Tick()
      requires pendingTicks > 0
      modifies this
      ensures isBlinking == old(isBlinking)
      ensures isBlinking ==> colour == Toggle(old(colour)) && pendingTicks == old(pendingTicks)
      ensures !isBlinking ==> colour == old(colour) && pendingTicks == old(pendingTicks) - 1
      ensures Animated()
      ensures old(SingleChain()) ==> SingleChain()
    {
      pendingTicks := pendingTicks - 1;
      BlinkFrequency();
    }

    /**
     * update_display's band check as written: in band, lower the flag and
     * show red; out of band, raise the flag and start blinking only if it
     * was down. A callback already pending is left to run.
     */
    method UpdateDisplay(frequency: string) returns (started: bool)
      requires IsDecimal(frequency)
      modifies this
      ensures isBlinking == !InRegion1(DecimalValue(frequency))
      ensures started <==> !InRegion1(DecimalValue(frequency)) && !old(isBlinking)
      ensures InRegion1(DecimalValue(frequency)) ==> colour == Red && pendingTicks == old(pendingTicks)
      ensures started ==> colour == Toggle(old(colour)) && pendingTicks == old(pendingTicks) + 1
      ensures !InRegion1(DecimalValue(frequency)) && !started ==>
        colour == old(colour) && pendingTicks == old(pendingTicks)
      ensures old(Animated()) ==> Animated()
    {
      var inBand := IsWithinIaruRegion1(frequency);
      started := false;
      if inBand {
        isBlinking := false;
        colour := Red;
      } else if !isBlinking {
        isBlinking := true;
        BlinkFrequency();
        started := true;
      }
    }

    /**
     * The band check with the pending callback cancelled when the frequency
     * comes back in band, so that a later start cannot add a second chain.
     */
    method UpdateDisplayCancelling(frequency: string) returns (started: bool)
      requires IsDecimal(frequency)
      modifies this
      ensures isBlinking == !InRegion1(DecimalValue(frequency))
      ensures started <==> !InRegion1(DecimalValue(frequency)) && !old(isBlinking)
      ensures InRegion1(DecimalValue(frequency)) ==> colour == Red && pendingTicks == 0
      ensures started ==> colour == Toggle(old(colour)) && pendingTicks == old(pendingTicks) + 1
      ensures !InRegion1(DecimalValue(frequency)) && !started ==>
        colour == old(colour) && pendingTicks == old(pendingTicks)
      ensures old(SingleChain()) ==> SingleChain()
    {
      var inBand := IsWithinIaruRegion1(frequency);
      started := false;
      if inBand {
        isBlinking := false;
        colour := Red;
        pendingTicks := 0;
      } else if !isBlinking {
        isBlinking := true;
        BlinkFrequency();
        started := true;
      }
    }
  }

  lemma InBandExample()
    ensures IsDecimal("7074000") && InRegion1(DecimalValue("7074000"))
  {
    assert "70" == "7" + ['0']; DecimalValueSnoc("7", '0');
    assert "707" == "70" + ['7']; DecimalValueSnoc("70", '7');
    assert "7074" == "707" + ['4']; DecimalValueSnoc("707", '4');
    assert "70740" == "7074" + ['0']; DecimalValueSnoc("7074", '0');
    assert "707400" == "70740" + ['0']; DecimalValueSnoc("70740", '0');
    assert "7074000" == "707400" + ['0']; DecimalValueSnoc("707400", '0');
    assert Region1Bands[3].Contains(7074000);
  }

  lemma OutOfBandExample()
    ensures IsDecimal("144300000") && !InRegion1(DecimalValue("144300000"))
  {
    DecimalValueAtLeast("144300000");
    assert Pow10(8) == 100000000;
    if InRegion1(DecimalValue("144300000")) {
      Region1Span(DecimalValue("144300000"));
    }
  }

  /**
   * Out of band, back in band and out again before the pending callback has
   * run: the label ends up with two blink chains scheduled.
   */
  method DoubleChainScenario() returns (freqLabel: FrequencyLabel)
    ensures freqLabel.isBlinking && freqLabel.pendingTicks == 2
  {
    InBandExample();
    OutOfBandExample();
    freqLabel := new FrequencyLabel();
    var started := freqLabel.UpdateDisplay("144300000");
    started := freqLabel.UpdateDisplay("7074000");
    started := freqLabel.UpdateDisplay("144300000");
  }
}
