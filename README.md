# Wavelog rig-control client: decision core

A Dafny model of the logic inside `gui.py`. The client polls a rigctld
daemon for frequency, RF power and mode. It forwards a changed reading to
the Wavelog logging API and to the window. It also flags frequencies
outside the IARU Region 1 band plan with a blinking frequency label.

The model covers five parts:

- **Bandplan** (`Bandplan.dfy`): the 12-segment Region 1 table, 1.81 MHz to
  70.25 MHz, with inclusive bounds, and `is_within_iaru_region1` as a
  search loop with an early return. Its result is proved equal to
  "some segment contains the frequency". The lemmas show that the table is
  sorted and disjoint. Each segment's edges are in the plan, and one hertz
  past them is not.
- **Frequency formatting** (`FrequencyFormat.dfy`): `format_frequency`
  inserts exactly one point, at index 1 below 10 MHz and at index 2 from
  10 MHz up. The decimal strings it reads through `int()` are modelled in
  `Digits.dfy`.
- **Mode extraction** (`ModeResponse.dfy`): the first line of the `m`
  reply, or `"Unknown"` when the reply is missing or empty.
- **Change detection** (`Polling.dfy`): the state of `main_loop` is the
  class `PollLoop`. It holds the three last values (all `None` at the
  start), the updates sent so far and the LED toggles. `Poll` is one pass of
  the loop body and is proved against the predicate `Changed`. `PollAll`
  runs a sequence of polls and is proved against the specification
  function `Emitted`. The lemmas about `Emitted`
  cover these properties:
  - the first poll always emits;
  - n identical polls emit exactly once;
  - no update repeats the one before it;
  - every update is one of the polls' readings.
- **Blink flag** (`Display.dfy`): the class `FrequencyLabel` holds
  `is_blinking`, the label colour and the number of scheduled
  `blink_frequency` callbacks. The methods are `UpdateDisplay` (the band
  check of `update_display`), `BlinkFrequency` and `Tick` (a scheduled
  callback that runs).

Power is an abstract `real`, compared only for equality. The frequency stays
the daemon's digit string, as `gui.py` keeps it.

## Model

| member | source | states |
|---|---|---|
| `Bandplan.IsWithinIaruRegion1` | gui.py:103-124 | the answer is true iff some segment of the Region 1 table contains int(frequency), bounds included |
| `Bandplan.Region1Separated` | gui.py:105-118 | the Region 1 table (`Region1Bands`, a constant) has 12 segments; every segment is non-empty, and each lies below the next with a gap between them |
| `Bandplan.AtMostOneSegment` | gui.py:105-118 | in a separated table at most one segment contains a given frequency |
| `Bandplan.EdgesExact` | gui.py:121-124 | in any separated table both edges of a segment classify in band; edge minus one and edge plus one do not |
| `Bandplan.Region1EdgesExact` | gui.py:105-124 | for each of the 12 Region 1 segments, both edges are in the plan (1810000 and 2000000, …) and the neighbours just past them (1809999, 2000001, …) are not |
| `Bandplan.Region1Span` | gui.py:105-118 | every frequency in the plan lies between 1.81 MHz and 70.25 MHz |
| `Digits.DecimalValue` | gui.py:79 | the value `int(frequency)` reads from a digit string (also at line 122); a string of n digits denotes a number below 10^n |
| `FrequencyFormat.AtLeastEightDigits` | gui.py:79-82 | a value of 10 MHz or more has at least eight digits, so the two-character split is always possible |
| `FrequencyFormat.FormatFrequency` | gui.py:78-82 | the output is the input with exactly one '.' inserted (length + 1, all other characters digits); the point is at index 1 when int(frequency) < 10000000 and at index 2 otherwise; removing it gives the input back |
| `FrequencyFormat.SplitAfterOne` | gui.py:79-80 | a frequency of at most seven digits is below 10 MHz, so the point goes after its first character |
| `FrequencyFormat.SplitAfterTwo` | gui.py:79-82 | a frequency of eight or more digits without a leading zero is at least 10 MHz, so the point goes after its first two characters |
| `FrequencyFormat.FormatFrequencyExample40m` | gui.py:78-82 | "7074000" formats as "7.074000" |
| `FrequencyFormat.FormatFrequencyExample20m` | gui.py:78-82 | "14074000" formats as "14.074000" |
| `FrequencyFormat.FormatFrequencyMisplacesPoint2m` | gui.py:78-82 | as written, "144300000" (144.3 MHz) formats as "14.4300000" |
| `FrequencyFormat.FormatFrequencyMisplacesPoint630m` | gui.py:78-82 | as written, "472000" (472 kHz) formats as "4.72000" |
| `FrequencyFormat.FormatMHz` | gui.py:78-82 | corrected formatter: six digits follow the point, and the digits without the point have the input's value, so the text read in MHz is the value in Hz over 10^6 |
| `FrequencyFormat.FormatMHzExample2m` | gui.py:78-82 | the corrected formatter shows "144300000" as "144.300000" |
| `FrequencyFormat.FormatMHzExample630m` | gui.py:78-82 | the corrected formatter shows "472000" as "0.472000" |
| `FrequencyFormat.FormatMHzAgrees` | gui.py:78-82 | for 7- and 8-digit frequencies without a leading zero (1 MHz to 99.999999 MHz), the corrected formatter equals the one as written |
| `ModeResponse.FirstLine` | gui.py:180 | split('\n')[0]: the result is a prefix of the text, contains no newline, and is followed by a newline or by the end of the text |
| `ModeResponse.FirstLineUnique` | gui.py:180 | any prefix with those three properties is the first line, so they characterise it |
| `ModeResponse.FirstLineOfJoin` | gui.py:180 | the first line of line + "\n" + rest is line when line has no newline |
| `ModeResponse.ExtractMode` | gui.py:180 | a missing or empty reply gives "Unknown"; otherwise the result is the reply's first line; it never contains a newline |
| `ModeResponse.ExtractModeExampleUsb` | gui.py:180 | "USB\nPBT_IN: 0" gives "USB" |
| `ModeResponse.ExtractModeExamples` | gui.py:180 | "CW" gives "CW"; the empty reply and no reply give "Unknown" |
| `Polling.Changed` | gui.py:186 | the field-wise test (frequency, mode or power differs, or nothing retained yet) holds exactly when the reading is not the retained one |
| `Polling.ReadingOf` | gui.py:169-180 | one cycle's reading keeps the frequency and power replies as they are; its mode has no newline, is "Unknown" for a missing or empty `m` reply and the reply's first line otherwise |
| `Polling.FirstPollEmits` | gui.py:162-189 | starting from the all-None last values, the first poll's reading is the first update |
| `Polling.SteadyPollsEmitNothing` | gui.py:186-194 | polls that all read the same as the retained reading forward nothing |
| `Polling.IdenticalPollsEmitOnce` | gui.py:162-194 | n >= 1 identical polls from the start of the loop forward exactly one update, the reading itself |
| `Polling.EmittedAtMostOnePerPoll` | gui.py:166-194 | a run of polls forwards at most one update per poll |
| `Polling.EmittedNeverRepeats` | gui.py:186-194 | the first update differs from the retained reading and every update differs from the one before it |
| `Polling.EmittedFromPolls` | gui.py:186-189 | every forwarded update is the reading of one of the polls |
| `Polling.PollLoop.constructor` | gui.py:162-164 | the last frequency, mode and power start as None; no update sent, no LED toggle |
| `Polling.PollLoop.Poll` | gui.py:168-194 | the LED toggles once; an update is sent iff frequency, mode or power differs from the last value; after an update the last values are the new ones, otherwise they are unchanged; either way the retained reading equals this poll's reading |
| `Polling.PollLoop.PollAll` | gui.py:166-197 | after a run of polls the updates sent are exactly Emitted of the run, the count returned is their number, the LED toggled once per poll, and the retained reading is the last poll's |
| `Display.Toggle` | gui.py:130-131 | a blink step always changes the colour |
| `Display.ToggleTwice` | gui.py:130-132 | two blink steps restore the colour |
| `Display.FrequencyLabel.constructor` | gui.py:213 | the label is created red (line 213) and is_blinking starts false (line 12); no blink is scheduled |
| `Display.FrequencyLabel.BlinkFrequency` | gui.py:127-133 | with the flag up, the colour swaps and one more callback is scheduled; with it down, nothing changes |
| `Display.FrequencyLabel.Tick` | gui.py:133 | a scheduled callback runs: it is no longer pending, and it blinks and reschedules iff the flag is still up; while blinking a callback stays pending |
| `Display.FrequencyLabel.UpdateDisplay` | gui.py:144-153 | afterwards is_blinking is exactly "out of band"; in band the colour is red; a blink starts iff the frequency is out of band and the flag was down, so a raised flag is never raised twice; a pending callback survives an in-band update |
| `Display.InBandExample` | gui.py:105-124 | 7074000 Hz is in the plan |
| `Display.OutOfBandExample` | gui.py:105-124 | 144300000 Hz is not in the plan |
| `Display.DoubleChainScenario` | gui.py:127-153 | the updates out of band, in band, out of band, with no callback run in between, leave two blink callbacks pending |
| `Display.FrequencyLabel.UpdateDisplayCancelling` | gui.py:144-153 | corrected band check: the same flag and colour behaviour, and the pending callback is cancelled in band, which keeps at most one blink chain |

## Left out

- Connecting to rigctld with its 10-second retry, and `send_command`'s socket exchange and `strip()` (gui.py:30-48): this is network I/O. The model starts from the replies of one cycle (`Polling.Responses`), where the `m` reply is an `Option`.
- The case where only the `f` query fails, so `frequency` is `None` while the other queries succeed: the model's frequency is always a string.
- `update_cloudlog` (gui.py:51-70) is an HTTP POST. The model records each payload it would send in `PollLoop.updates`.
- `log_message`, `toggle_led`'s colour flash and sleep, and all widget setup (gui.py:73-75, 96-100, 203-245): these are UI rendering. A LED toggle is only counted.
- The label texts (formatted frequency, "MHz", mode) and the power bar set in `update_display` (gui.py:138-142): these are rendering. The formatter itself is modelled.
- The hand-off from `main_loop` to `update_display` through `root.after(0, …)`: it is asynchronous and runs on the UI thread. `PollLoop` and `FrequencyLabel` are separate here, and the display is driven directly.
- The 500 ms and `POLL_INTERVAL` timing: the model counts pending blink callbacks, not time.
- `reconnect` and the background threads (gui.py:86-94, 243): this is concurrency.
- Configuration loading (gui.py:15-27): this is a static external read.
- Power parsing, `float(power_level) * 100` with its `ValueError` fallback to 0.0 (gui.py:173-176): this is floating point. Power is a `real` compared exactly, so a NaN reading, which would never compare equal, is not modelled. A `None` power reply raises an uncaught `TypeError` that ends the loop; this is not modelled.
- `FrequencyFormat.FormatFrequency`: requires a non-empty all-digit string. Python's `int()` also accepts a sign, surrounding whitespace and underscores, and raises an uncaught `ValueError` on anything else; neither is modelled.
- `Bandplan.IsWithinIaruRegion1`: requires a non-empty all-digit string, for the same reason as `FormatFrequency`.
- `Display.FrequencyLabel.UpdateDisplay`: requires a non-empty all-digit string, for the same reason as `FormatFrequency`.
- `Display.FrequencyLabel.UpdateDisplayCancelling`: requires a non-empty all-digit string, for the same reason as `FormatFrequency`.

## Findings

| source | as written | input that shows it | evidently intended | confidence | as-written member | corrected member |
|---|---|---|---|---|---|---|
| gui.py:78-82 | the point goes after one character below 10 MHz and after two characters from 10 MHz up | "144300000" (144.3 MHz) shows as "14.4300000 MHz"; "472000" (472 kHz) shows as "4.72000 MHz" | a MHz reading with the point six digits from the end: "144.300000", "0.472000" | medium, not executed | `FrequencyFormat.FormatFrequencyMisplacesPoint2m`, `FrequencyFormat.FormatFrequencyMisplacesPoint630m` (about `FrequencyFormat.FormatFrequency`) | `FrequencyFormat.FormatMHz`, with `FrequencyFormat.FormatMHzExample2m`, `FrequencyFormat.FormatMHzExample630m` and `FrequencyFormat.FormatMHzAgrees` |
| gui.py:144-153 | an in-band update lowers `is_blinking` but leaves the scheduled `blink_frequency` call pending; the next out-of-band update starts a second chain | out of band ("144300000"), in band ("7074000"), out of band again, all before the pending call runs (possible when `POLL_INTERVAL` is 0) | one blink chain at a time, stopped when the frequency comes back in band | low, not executed | `Display.DoubleChainScenario` (about `Display.FrequencyLabel.UpdateDisplay`) | `Display.FrequencyLabel.UpdateDisplayCancelling` |
