/** The playing EPG tag and the duration the PVR GUI info keeps for it
    (CPVRGUIInfo::UpdatePlayingTag, ResetPlayingTag), and the elapsed and
    remaining times derived from them (GetElapsedTime, GetRemainingTime). */
module PlayingTag {
  import opened PvrTypes

  /** m_playingEpgTag and m_iDuration. */
  datatype PlayingState = PlayingState(tag: Option<EpgTag>, duration: int)

  /** What one poll cycle reads from the PVR manager: the playing channel, the
      playing EPG tag, the channel's current EPG event (GetEPGNow()), the playing
      recording, and whether the stored tag is still active at this moment. */
  datatype PlaybackReading = PlaybackReading(
    channel: Option<Channel>, epgTag: Option<EpgTag>, channelEpgNow: Option<EpgTag>,
    recording: Option<Recording>, storedTagActive: bool)

  /** ResetPlayingTag: no tag, no duration. */
  const RESET := PlayingState(None, 0)

  /** The stored tag is active and belongs to the channel being played. */
  predicate TagStillCurrent(s: PlayingState, r: PlaybackReading)
  {
    s.tag.Some? && r.storedTagActive &&
    s.tag.value.channel.Some? && r.channel.Some? && s.tag.value.channel.value == r.channel.value
  }

  /** The tag to switch to: the playing tag, else the channel's current event. */
  function NewTag(r: PlaybackReading): Option<EpgTag>
  {
    if r.epgTag.Some? then r.epgTag else r.channelEpgNow
  }

  /** The playing state after one call of UpdatePlayingTag, given the time-shift
      window's start and end as they are at that moment. */
  function Step(s: PlayingState, tsStart: int, tsEnd: int, r: PlaybackReading): PlayingState
  {
    if r.channel.Some? || r.epgTag.Some? then
      if TagStillCurrent(s, r) then s
      else
        var t := NewTag(r);
        if t.Some? then PlayingState(t, t.value.duration)
        else if tsEnd > tsStart then PlayingState(None, tsEnd - tsStart)
        else PlayingState(None, 0)
    else if r.recording.Some? then PlayingState(None, r.recording.value.duration)
    else s
  }

  /** A stored tag always comes with its own duration. */
  predicate Inv(s: PlayingState)
  {
    s.tag.Some? ==> s.duration == s.tag.value.duration
  }

  lemma StepKeepsInv(s: PlayingState, tsStart: int, tsEnd: int, r: PlaybackReading)
    requires Inv(s)
    ensures Inv(Step(s, tsStart, tsEnd, r))
  {
  }

  /** Where the duration comes from after a cycle that replaces the tag. */
  lemma DurationSources(s: PlayingState, tsStart: int, tsEnd: int, r: PlaybackReading)
    ensures var s' := Step(s, tsStart, tsEnd, r);
      ((r.channel.Some? || r.epgTag.Some?) && !TagStillCurrent(s, r) ==>
        (NewTag(r).Some? ==> s'.tag == NewTag(r) && s'.duration == NewTag(r).value.duration) &&
        (NewTag(r).None? ==> s'.tag.None? && s'.duration == (if tsEnd > tsStart then tsEnd - tsStart else 0))) &&
      (r.channel.None? && r.epgTag.None? && r.recording.Some? ==>
        s'.tag.None? && s'.duration == r.recording.value.duration) &&
      (TagStillCurrent(s, r) || (r.channel.None? && r.epgTag.None? && r.recording.None?) ==> s' == s)
  {
  }

  /** Durations never turn negative when upstream durations are not negative. */
  lemma DurationNonNegative(s: PlayingState, tsStart: int, tsEnd: int, r: PlaybackReading)
    requires s.duration >= 0
    requires r.epgTag.Some? ==> r.epgTag.value.duration >= 0
    requires r.channelEpgNow.Some? ==> r.channelEpgNow.value.duration >= 0
    requires r.recording.Some? ==> r.recording.value.duration >= 0
    ensures Step(s, tsStart, tsEnd, r).duration >= 0
  {
  }

  /** The time elapsing is measured from: the playing tag's start, else the
      start of the time-shift window. */
  function ReferenceStart(tag: Option<EpgTag>, tsStart: int): int
  {
    if tag.Some? then tag.value.startUtc else tsStart
  }

  /** There is something to measure from: a playing tag or a time-shift start. */
  predicate HasReference(tag: Option<EpgTag>, tsStart: int)
  {
    tag.Some? || tsStart != 0
  }

  /** The seconds played since the reference start, never negative. */
  function ElapsedSeconds(tag: Option<EpgTag>, tsStart: int, tsPlay: int): (r: int)
    ensures r >= 0
    ensures !HasReference(tag, tsStart) ==> r == 0
    ensures r > 0 <==> HasReference(tag, tsStart) && tsPlay > ReferenceStart(tag, tsStart)
    ensures r > 0 ==> ReferenceStart(tag, tsStart) + r == tsPlay
  {
    if HasReference(tag, tsStart) then
      var start := ReferenceStart(tag, tsStart);
      if tsPlay > start then tsPlay - start else 0
    else 0
  }

  /** The list item shows an EPG event other than the playing one, so its own
      figures are used (`epgTag && epgTag != m_playingEpgTag`). */
  predicate ShowsOtherTag(item: Option<ItemEpg>, playing: Option<EpgTag>)
  {
    item.Some? && (playing.None? || item.value.tag != playing.value)
  }

  /** The remaining time of what plays: duration minus elapsed time. */
  function Remaining(s: PlayingState, tsStart: int, tsPlay: int): int
  {
    s.duration - ElapsedSeconds(s.tag, tsStart, tsPlay)
  }

  /** Playing inside the event's span, the remaining time lies between 0 and
      the event's duration. */
  lemma RemainingWithinEvent(s: PlayingState, tsStart: int, tsPlay: int)
    requires Inv(s) && s.tag.Some?
    requires s.tag.value.startUtc <= tsPlay <= s.tag.value.startUtc + s.tag.value.duration
    ensures 0 <= Remaining(s, tsStart, tsPlay) <= s.duration
  {
  }

  /** Without a tag, after a cycle that measured the duration from the time-shift
      window, playing inside the window leaves between 0 and the window's length. */
  lemma RemainingWithinBuffer(s: PlayingState, tsStart: int, tsEnd: int, tsPlay: int, r: PlaybackReading)
    requires (r.channel.Some? || r.epgTag.Some?) && !TagStillCurrent(s, r) && NewTag(r).None?
    requires tsStart <= tsPlay <= tsEnd
    ensures var s' := Step(s, tsStart, tsEnd, r);
      0 <= Remaining(s', tsStart, tsPlay) <= s'.duration
  {
  }
}
