/** The time-shift window of the PVR GUI info cache (CPVRGUIInfo::UpdateTimeshift)
    as a value, the step one poll cycle applies to it, and what that step keeps. */
module Timeshift {
  import opened PvrTypes

  /** The time-shift fields of the snapshot: the flags m_bHasTimeshiftData and
      m_bIsTimeshifting, and the times m_iStartTime, m_iTimeshiftStartTime,
      m_iTimeshiftEndTime, m_iTimeshiftPlayTime, m_iLastTimeshiftUpdate (seconds)
      and m_iTimeshiftOffset. */
  datatype Window = Window(
    hasData: bool, isTimeshifting: bool,
    startTime: int, tsStart: int, tsEnd: int, tsPlay: int,
    lastUpdate: int, offset: int)

  /** What one poll cycle reads from the PVR manager, the data cache core and
      the wall clock: IsTimeshifting(), time(nullptr), GetStartTime(), the
      play / min / max times in milliseconds, and whether GetSpeed() == 1.0. */
  datatype ClockReading = ClockReading(
    isTimeshifting: bool, now: int, startTime: int,
    playTimeMs: int, minTimeMs: int, maxTimeMs: int,
    normalSpeed: bool)

  /** One cycle: whether TV or radio is playing, and what was read. */
  datatype Cycle = Cycle(playing: bool, clock: ClockReading)

  /** Every field of the window is zero and both flags are off. The time of
      the last update is not part of it: ResetProperties leaves that time
      alone, while an idle cycle that finds data sets it to 0 as well. */
  predicate IsEmpty(w: Window)
  {
    !w.hasData && !w.isTimeshifting &&
    w.startTime == 0 && w.tsStart == 0 && w.tsEnd == 0 && w.tsPlay == 0 && w.offset == 0
  }

  /** The window is empty until data arrives, and once it has data the offset
      is the distance from the play time to the time of the last update. */
  predicate Inv(w: Window)
  {
    (!w.hasData ==> IsEmpty(w)) &&
    (w.hasData ==> w.offset == w.lastUpdate - w.tsPlay)
  }

  /** The start time a playing cycle uses: the upstream one when it is set,
      otherwise the one stored before, otherwise "now". */
  function EffectiveStart(stored: int, c: ClockReading): (s: int)
    ensures c.startTime != 0 ==> s == c.startTime
    ensures c.startTime == 0 && stored != 0 ==> s == stored
    ensures c.startTime == 0 && stored == 0 ==> s == c.now
  {
    if c.startTime != 0 then c.startTime
    else if stored == 0 then c.now
    else stored
  }

  /** Seconds of the buffer before / after the start (0 when not time-shifting). */
  function MinSeconds(c: ClockReading): int
  {
    if c.isTimeshifting then MsToSeconds(c.minTimeMs) else 0
  }

  function MaxSeconds(c: ClockReading): int
  {
    if c.isTimeshifting then MsToSeconds(c.maxTimeMs) else 0
  }

  /** The window after one call of UpdateTimeshift. */
  function Step(w: Window, cy: Cycle): Window
  {
    if !cy.playing then
      if w.hasData then Window(false, false, 0, 0, 0, 0, 0, 0) else w
    else
      var c := cy.clock;
      var start := EffectiveStart(w.startTime, c);
      var tsStart := start + MinSeconds(c);
      var tsEnd := start + MaxSeconds(c);
      var tsPlay :=
        if tsEnd > tsStart then start + MsToSeconds(c.playTimeMs)
        else if c.normalSpeed then c.now - w.offset
        else w.tsPlay;
      Window(true, c.isTimeshifting, start, tsStart, tsEnd, tsPlay, c.now, c.now - tsPlay)
  }

  /** The window after a sequence of cycles, oldest first. */
  function Run(w: Window, cycles: seq<Cycle>): Window
    decreases |cycles|
  {
    if cycles == [] then w else Run(Step(w, cycles[0]), cycles[1..])
  }

  /** Every cycle keeps the invariant. */
  lemma StepKeepsInv(w: Window, cy: Cycle)
    requires Inv(w)
    ensures Inv(Step(w, cy))
  {
  }

  /** A cycle in which nothing plays leaves an empty window; when the window
      had data, the last-update time is zeroed too. A second such cycle
      changes nothing. */
  lemma IdleCycleEmptiesWindow(w: Window, cy: Cycle, cy': Cycle)
    requires Inv(w) && !cy.playing && !cy'.playing
    ensures IsEmpty(Step(w, cy))
    ensures w.hasData ==> Step(w, cy).lastUpdate == 0
    ensures !w.hasData ==> Step(w, cy) == w
    ensures Step(Step(w, cy), cy') == Step(w, cy)
  {
  }

  /** After a playing cycle the window has data, was updated "now", and its
      buffer bounds are the start plus the minimum and maximum buffer times. */
  lemma PlayingCycleBounds(w: Window, cy: Cycle)
    requires cy.playing
    ensures var r := Step(w, cy);
      r.hasData && r.lastUpdate == cy.clock.now &&
      r.tsStart == r.startTime + MinSeconds(cy.clock) &&
      r.tsEnd == r.startTime + MaxSeconds(cy.clock) &&
      r.offset == cy.clock.now - r.tsPlay
    ensures !cy.clock.isTimeshifting ==> Step(w, cy).tsStart == Step(w, cy).tsEnd
  {
  }

  /** While playing and the upstream reports no start time, the start time
      first observed is held for all later cycles. */
  lemma {:induction false} StartTimeHeld(w: Window, cycles: seq<Cycle>)
    requires w.startTime != 0
    requires forall i :: 0 <= i < |cycles| ==> cycles[i].playing && cycles[i].clock.startTime == 0
    ensures Run(w, cycles).startTime == w.startTime
    decreases |cycles|
  {
    if cycles != [] {
      StartTimeHeld(Step(w, cycles[0]), cycles[1..]);
    }
  }

  /** The first playing cycle without an upstream start time takes "now" as
      the start, and while it is not the epoch that value stays. */
  lemma {:induction false} FirstObservedStartHeld(w: Window, first: Cycle, rest: seq<Cycle>)
    requires w.startTime == 0 && first.playing && first.clock.startTime == 0 && first.clock.now != 0
    requires forall i :: 0 <= i < |rest| ==> rest[i].playing && rest[i].clock.startTime == 0
    ensures Run(w, [first] + rest).startTime == first.clock.now
  {
    assert ([first] + rest)[1..] == rest;
    StartTimeHeld(Step(w, first), rest);
  }

  /** A cycle whose clock cannot time-shift and plays at normal speed. */
  predicate LiveAtNormalSpeed(cy: Cycle)
  {
    cy.playing && !cy.clock.isTimeshifting && cy.clock.normalSpeed
  }

  /** Without time-shift support, playing at normal speed keeps the offset:
      the play time moves with the clock. */
  lemma {:induction false} OffsetHeldAtNormalSpeed(w: Window, cycles: seq<Cycle>)
    requires forall i :: 0 <= i < |cycles| ==> LiveAtNormalSpeed(cycles[i])
    ensures Run(w, cycles).offset == w.offset
    decreases |cycles|
  {
    if cycles != [] {
      OffsetHeldAtNormalSpeed(Step(w, cycles[0]), cycles[1..]);
    }
  }

  /** Without time-shift support and not at normal speed (paused), the play
      time stays frozen and the offset grows with the clock. */
  lemma PausedPlayTimeFrozen(w: Window, cy: Cycle)
    requires cy.playing && !cy.clock.isTimeshifting && !cy.clock.normalSpeed
    ensures Step(w, cy).tsPlay == w.tsPlay
    ensures Step(w, cy).offset == cy.clock.now - w.tsPlay
  {
  }

  /** With a time-shift buffer, a play position between the buffer's minimum
      and maximum lands between the window's start and end. */
  lemma PlayTimeInsideBuffer(w: Window, cy: Cycle)
    requires cy.playing && cy.clock.isTimeshifting
    requires cy.clock.minTimeMs <= cy.clock.playTimeMs <= cy.clock.maxTimeMs
    requires MsToSeconds(cy.clock.minTimeMs) < MsToSeconds(cy.clock.maxTimeMs)
    ensures var r := Step(w, cy); r.tsStart <= r.tsPlay <= r.tsEnd
  {
    MsToSecondsMonotonic(cy.clock.minTimeMs, cy.clock.playTimeMs);
    MsToSecondsMonotonic(cy.clock.playTimeMs, cy.clock.maxTimeMs);
  }
}
