/**
 * Display formatting of the daemon's frequency (a digit string in Hz) as
 * a number of megahertz, shown next to a fixed "MHz" label.
 */
module FrequencyFormat {
  import opened Digits

  const TenMHz: nat := 10000000

  /** Where format_frequency puts the decimal point: after one character below 10 MHz, after two from 10 MHz up. */
  function DotIndex(frequency: string): (k: nat)
    requires IsDecimal(frequency)
  {
    if DecimalValue(frequency) < TenMHz then 1 else 2
  }

  /** A number of 10 MHz or more needs at least eight digits. */
  lemma AtLeastEightDigits(s: string)
    requires AllDigits(s) && DecimalValue(s) >= TenMHz
    ensures |s| >= 8
  {
    if |s| < 8 {
      Pow10Monotone(|s|, 7);
    }
  }

  /**
   * format_frequency as written: the input with exactly one '.' inserted,
   * at DotIndex; everything else is the input's digits, in order.
   */
  function FormatFrequency(frequency: string): (r: string)
    requires IsDecimal(frequency)
    ensures DotIndex(frequency) < |r| == |frequency| + 1
    ensures r[DotIndex(frequency)] == '.'
    ensures r[..DotIndex(frequency)] + r[DotIndex(frequency) + 1..] == frequency
    ensures forall i :: 0 <= i < |r| && i != DotIndex(frequency) ==> IsDigit(r[i])
  {
    if DecimalValue(frequency) < TenMHz then
      frequency[..1] + "." + frequency[1..]
    else
      AtLeastEightDigits(frequency);
      frequency[..2] + "." + frequency[2..]
  }

  /** Digits after the point in a megahertz reading of a value in hertz. */
  const FractionDigits: nat := 6

  /**
   * The evidently intended formatting: the point sits six digits from the
   * end, so the text read as megahertz is exactly the value in hertz over
   * 10^6, whatever the magnitude. Below 1 MHz the integer part is "0" and
   * the fraction is padded with zeros.
   */
  function FormatMHz(frequency: string): (r: string)
    requires IsDecimal(frequency)
    ensures |r| > FractionDigits + 1 && r[|r| - 7] == '.'
    ensures IsDecimal(r[..|r| - 7]) && AllDigits(r[|r| - 6..])
    ensures DecimalValue(r[..|r| - 7] + r[|r| - 6..]) == DecimalValue(frequency)
  {
    if |frequency| > FractionDigits then
      var r := frequency[..|frequency| - 6] + "." + frequency[|frequency| - 6..];
      assert r[..|r| - 7] + r[|r| - 6..] == frequency;
      r
    else
      var r := "0." + Zeros(6 - |frequency|) + frequency;
      assert r[..|r| - 7] == "0";
      assert r[..|r| - 7] + r[|r| - 6..] == Zeros(7 - |frequency|) + frequency;
      LeadingZeros(7 - |frequency|, frequency);
      r
  }

  /** Up to seven digits make less than 10 MHz: the point goes after the first character. */
  lemma SplitAfterOne(frequency: string)
    requires IsDecimal(frequency) && |frequency| <= 7
    ensures FormatFrequency(frequency) == frequency[..1] + "." + frequency[1..]
  {
    Pow10Monotone(|frequency|, 7);
    assert Pow10(7) == TenMHz;
  }

  /** Eight or more digits without a leading zero make at least 10 MHz: the point goes after two. */
  lemma SplitAfterTwo(frequency: string)
    requires IsDecimal(frequency) && |frequency| >= 8 && frequency[0] != '0'
    ensures FormatFrequency(frequency) == frequency[..2] + "." + frequency[2..]
  {
    DecimalValueAtLeast(frequency);
    Pow10Monotone(7, |frequency| - 1);
    assert Pow10(7) == TenMHz;
  }

  /**
   * On the 1 MHz to 99.999999 MHz range, where every band of the plan lies,
   * the two formatters agree.
   */
  lemma {:induction false} FormatMHzAgrees(frequency: string)
    requires IsDecimal(frequency) && frequency[0] != '0'
    requires 7 <= |frequency| <= 8
    ensures FormatMHz(frequency) == FormatFrequency(frequency)
  {
    if |frequency| == 7 {
      SplitAfterOne(frequency);
    } else {
      SplitAfterTwo(frequency);
    }
  }

  /** A 144.3 MHz reading (2 m band) is shown as "14.4300000": 14.43 MHz. */
  lemma FormatFrequencyMisplacesPoint2m()
    ensures FormatFrequency("144300000") == "14.4300000"
  {
    SplitAfterTwo("144300000");
  }

  /** A 472 kHz reading (630 m band) is shown as "4.72000": 4.72 MHz. */
  lemma FormatFrequencyMisplacesPoint630m()
    ensures FormatFrequency("472000") == "4.72000"
  {
    SplitAfterOne("472000");
  }

  lemma FormatMHzExample2m()
    ensures FormatMHz("144300000") == "144.300000"
  {
  }

  lemma FormatMHzExample630m()
    ensures FormatMHz("472000") == "0.472000"
  {
  }

  /** The worked example of the rule below 10 MHz. */
  lemma FormatFrequencyExample40m()
    ensures FormatFrequency("7074000") == "7.074000"
  {
    SplitAfterOne("7074000");
  }

  /** The worked example of the rule from 10 MHz up. */
  lemma FormatFrequencyExample20m()
    ensures FormatFrequency("14074000") == "14.074000"
  {
    SplitAfterTwo("14074000");
  }
}
