/**
 * The operating mode from the daemon's reply to `m`: the daemon answers
 * with the mode token and further lines (the passband width), and only the
 * first line is kept. A missing or empty reply reads as "Unknown".
 */
module ModeResponse {
  import opened Wrappers

  const UnknownMode: string := "Unknown"

  /**
   * The text before the first newline (the whole text when there is none),
   * as split('\n')[0] gives it.
   */
  function FirstLine(s: string): (line: string)
    ensures line <= s && '\n' !in line
    ensures |line| == |s| || s[|line|] == '\n'
  {
    if s == [] || s[0] == '\n' then [] else [s[0]] + FirstLine(s[1..])
  }

  /** The three properties of FirstLine determine it: any line that has them is the first line. */
  lemma {:induction false} FirstLineUnique(s: string, line: string)
    requires line <= s && '\n' !in line
    requires |line| == |s| || s[|line|] == '\n'
    ensures FirstLine(s) == line
  {
    if s != [] && s[0] != '\n' {
      assert line != [] && line[0] == s[0];
      FirstLineUnique(s[1..], line[1..]);
    }
  }

  /** Splitting a line off the front of a reply gives that line back. */
  lemma FirstLineOfJoin(line: string, rest: string)
    requires '\n' !in line
    ensures FirstLine(line + "\n" + rest) == line
  {
    var s := line + "\n" + rest;
    assert s[|line|] == '\n';
    FirstLineUnique(s, line);
  }

  /**
   * The mode kept from a reply: none or an empty reply give UnknownMode,
   * any other reply its first line, which holds no newline.
   */
  function ExtractMode(modeResponse: Option<string>): (mode: string)
    ensures '\n' !in mode
    ensures modeResponse == None || modeResponse == Some("") ==> mode == UnknownMode
    ensures modeResponse.Some? && modeResponse.value != "" ==>
      && mode <= modeResponse.value
      && (|mode| == |modeResponse.value| || modeResponse.value[|mode|] == '\n')
  {
    match modeResponse
    case Some(s) => if s != "" then FirstLine(s) else UnknownMode
    case None => UnknownMode
  }

  /** The daemon's usual reply: the mode, then the passband on a second line. */
  lemma ExtractModeExampleUsb()
    ensures ExtractMode(Some("USB\nPBT_IN: 0")) == "USB"
  {
    assert "USB\nPBT_IN: 0" == "USB" + "\n" + "PBT_IN: 0";
    FirstLineOfJoin("USB", "PBT_IN: 0");
  }

  lemma ExtractModeExamples()
    ensures ExtractMode(Some("CW")) == "CW"
    ensures ExtractMode(Some("")) == "Unknown"
    ensures ExtractMode(None) == "Unknown"
  {
    FirstLineUnique("CW", "CW");
  }
}
