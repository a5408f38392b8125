/**
 * The polling loop of the client (main_loop): each cycle reads frequency,
 * RF power and mode from the daemon, pulses the activity LED, and forwards
 * the reading to the logging API and the display only when it differs from
 * the last one forwarded.
 */
module Polling {
  import opened Wrappers
  import opened ModeResponse

  /** The replies of one poll cycle: to `f`, to `l RFPOWER` (already scaled to percent), and to `m`. */
  datatype Responses = Responses(frequency: string, powerLevel: real, modeResponse: Option<string>)

  /** The state one poll yields, and the payload of an update. */
  datatype Reading = Reading(frequency: string, mode: string, powerLevel: real)

  /** The reading of one cycle: the replies as they are, with the mode cut to its first line. */
  function ReadingOf(p: Responses): (r: Reading)
    ensures r.frequency == p.frequency && r.powerLevel == p.powerLevel
    ensures '\n' !in r.mode
    ensures p.modeResponse == None || p.modeResponse == Some("") ==> r.mode == UnknownMode
    ensures p.modeResponse.Some? && p.modeResponse.value != "" ==> r.mode <= p.modeResponse.value
    ensures p.modeResponse.Some? && p.modeResponse.value != "" ==>
      (|r.mode| == |p.modeResponse.value| || p.modeResponse.value[|r.mode|] == '\n')
  {
    Reading(p.frequency, ExtractMode(p.modeResponse), p.powerLevel)
  }

  /**
   * Does the reading differ, field by field, from the last one forwarded
   * (none before the first poll)? Exactly when it is not the retained one.
   */
  predicate Changed(last: Option<Reading>, r: Reading): (changed: bool)
    ensures changed <==> last != Some(r)
  {
    match last
    case None => true
    case Some(l) => r.frequency != l.frequency || r.mode != l.mode || r.powerLevel != l.powerLevel
  }

  /** The updates a run of polls forwards, starting from the retained reading last. */
  function Emitted(last: Option<Reading>, polls: seq<Responses>): (updates: seq<Reading>)
    decreases |polls|
  {
    if polls == [] then []
    else
      var r := ReadingOf(polls[0]);
      (if Changed(last, r) then [r] else []) + Emitted(Some(r), polls[1..])
  }

  /** The reading retained after a run of polls: the last poll's, or the old one after none. */
  function LastAfter(last: Option<Reading>, polls: seq<Responses>): (retained: Option<Reading>)
  {
    if polls == [] then last else Some(ReadingOf(polls[|polls| - 1]))
  }

  /** The run from poll i on: poll i's update, if any, then the run from poll i + 1. */
  lemma EmittedUnfold(last: Option<Reading>, polls: seq<Responses>, i: int)
    requires 0 <= i < |polls|
    ensures Emitted(last, polls[i..])
      == (if Changed(last, ReadingOf(polls[i])) then [ReadingOf(polls[i])] else [])
         + Emitted(Some(ReadingOf(polls[i])), polls[i + 1..])
  {
    assert polls[i..][0] == polls[i];
    assert polls[i..][1..] == polls[i + 1..];
  }

  lemma ConcatAssociative(a: seq<Reading>, b: seq<Reading>, c: seq<Reading>)
    ensures (a + b) + c == a + (b + c)
  {
  }

  /** A run forwards at most one update per poll. */
  lemma {:induction false} EmittedAtMostOnePerPoll(last: Option<Reading>, polls: seq<Responses>)
    ensures |Emitted(last, polls)| <= |polls|
    decreases |polls|
  {
    if polls != [] {
      EmittedAtMostOnePerPoll(Some(ReadingOf(polls[0])), polls[1..]);
    }
  }

  /**
   * No update repeats the one before it: the first differs from the
   * retained reading, and each later one from its predecessor.
   */
  lemma {:induction false} EmittedNeverRepeats(last: Option<Reading>, polls: seq<Responses>)
    ensures var e := Emitted(last, polls);
      && (e != [] ==> Changed(last, e[0]))
      && forall i :: 0 < i < |e| ==> e[i - 1] != e[i]
    decreases |polls|
  {
    if polls != [] {
      var r := ReadingOf(polls[0]);
      EmittedNeverRepeats(Some(r), polls[1..]);
      var tail := Emitted(Some(r), polls[1..]);
      if tail != [] {
        assert tail[0] != r;
      }
    }
  }

  /** Every update forwarded is the reading of one of the polls. */
  lemma {:induction false} EmittedFromPolls(last: Option<Reading>, polls: seq<Responses>, k: int)
    requires 0 <= k < |Emitted(last, polls)|
    ensures exists i :: 0 <= i < |polls| && Emitted(last, polls)[k] == ReadingOf(polls[i])
    decreases |polls|
  {
    var r := ReadingOf(polls[0]);
    var head := if Changed(last, r) then [r] else [];
    if k < |head| {
      assert Emitted(last, polls)[k] == ReadingOf(polls[0]);
    } else {
      EmittedFromPolls(Some(r), polls[1..], k - |head|);
      var i :| 0 <= i < |polls[1..]| && Emitted(Some(r), polls[1..])[k - |head|] == ReadingOf(polls[1..][i]);
      assert Emitted(last, polls)[k] == ReadingOf(polls[i + 1]);
    }
  }

  /** The first poll of the loop is always forwarded: nothing is retained yet. */
  lemma FirstPollEmits(polls: seq<Responses>)
    requires polls != []
    ensures Emitted(None, polls) != [] && Emitted(None, polls)[0] == ReadingOf(polls[0])
  {
  }

  /** Polls that all read like the retained reading forward nothing. */
  lemma {:induction false} SteadyPollsEmitNothing(r: Reading, polls: seq<Responses>)
    requires forall i :: 0 <= i < |polls| ==> ReadingOf(polls[i]) == r
    ensures Emitted(Some(r), polls) == []
  {
    if polls != [] {
      SteadyPollsEmitNothing(r, polls[1..]);
    }
  }

  /** n >= 1 identical polls from the start of the loop forward exactly one update. */
  lemma IdenticalPollsEmitOnce(p: Responses, n: nat)
    requires n >= 1
    ensures Emitted(None, seq(n, _ => p)) == [ReadingOf(p)]
  {
    var polls := seq(n, _ => p);
    SteadyPollsEmitNothing(ReadingOf(p), polls[1..]);
  }

  /**
   * The state main_loop keeps between polls: the last forwarded frequency,
   * mode and power level (all None until the first poll), the updates sent
   * so far, and how often the activity LED was toggled.
   */
  class PollLoop {
    var lastFrequency: Option<string>
    var lastMode: Option<string>
    var lastPowerLevel: Option<real>
    /** Each entry went to update_cloudlog and was queued for update_display. */
    var updates: seq<Reading>
    var ledToggles: nat

    /** The three last values are set together. */
    ghost predicate Valid()
      reads this
    {
      lastFrequency.None? == lastMode.None? == lastPowerLevel.None?
    }

    ghost function Last(): Option<Reading>
      reads this
      requires Valid()
    {
      if lastFrequency.None? then None
      else Some(Reading(lastFrequency.value, lastMode.value, lastPowerLevel.value))
    }

    constructor ()
      ensures Valid() && Last() == None
      ensures updates == [] && ledToggles == 0
    {
      lastFrequency, lastMode, lastPowerLevel := None, None, None;
      updates, ledToggles := [], 0;
    }

    /**
     * One pass of the loop body: extract the mode, toggle the LED, and
     * forward the reading iff a field differs from the last values, which
     * then take the reading's values.
     */
    method Poll(p: Responses) returns (emitted: bool)
      requires Valid()
      modifies this
      ensures Valid()
      ensures emitted <==>
        || Some(p.frequency) != old(lastFrequency)
        || Some(ExtractMode(p.modeResponse)) != old(lastMode)
        || Some(p.powerLevel) != old(lastPowerLevel)
      ensures emitted == Changed(old(Last()), ReadingOf(p))
      ensures updates == old(updates) + (if emitted then [ReadingOf(p)] else [])
      ensures !emitted ==>
        lastFrequency == old(lastFrequency) && lastMode == old(lastMode) && lastPowerLevel == old(lastPowerLevel)
      ensures Last() == Some(ReadingOf(p))
      ensures ledToggles == old(ledToggles) + 1
    {
      var frequency, powerLevel := p.frequency, p.powerLevel;
      var mode := ExtractMode(p.modeResponse);
      ledToggles := ledToggles + 1;
      if Some(frequency) != lastFrequency || Some(mode) != lastMode || Some(powerLevel) != lastPowerLevel {
        updates := updates + [Reading(frequency, mode, powerLevel)];
        lastFrequency, lastMode, lastPowerLevel := Some(frequency), Some(mode), Some(powerLevel);
        emitted := true;
      } else {
        emitted := false;
      }
    }

    /** A run of polls: forwards Emitted of them and reports how many updates went out. */
    method PollAll(polls: seq<Responses>) returns (count: nat)
      requires Valid()
      modifies this
      ensures Valid()
      ensures updates == old(updates) + Emitted(old(Last()), polls)
      ensures count == |Emitted(old(Last()), polls)|
      ensures Last() == LastAfter(old(Last()), polls)
      ensures ledToggles == old(ledToggles) + |polls|
    {
      ghost var start := Last();
      count := 0;
      var i := 0;
      while i < |polls|
        invariant 0 <= i <= |polls|
        invariant Valid()
        invariant updates + Emitted(Last(), polls[i..]) == old(updates) + Emitted(start, polls)
        invariant count == |updates| - |old(updates)|
        invariant Last() == LastAfter(start, polls[..i])
        invariant ledToggles == old(ledToggles) + i
      {
        ghost var r := ReadingOf(polls[i]);
        ghost var sent := updates;
        ghost var head := if Changed(Last(), r) then [r] else [];
        ghost var rest := Emitted(Some(r), polls[i + 1..]);
        EmittedUnfold(Last(), polls, i);
        var emitted := Poll(polls[i]);
        if emitted {
          count := count + 1;
        }
        ConcatAssociative(sent, head, rest);
        i := i + 1;
        assert LastAfter(start, polls[..i]) == Some(r);
      }
      assert polls[..i] == polls;
    }
  }
}
