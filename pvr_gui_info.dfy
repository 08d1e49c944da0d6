/** The PVR GUI info cache (CPVRGUIInfo): a snapshot of playback, time-shift,
    playing-tag and backend state, the poll steps that update it, and the
    lookups the GUI asks of it. Every upstream query is a parameter. */
module PvrGuiInfo {
  import opened PvrTypes
  import Timeshift
  import BackendCache
  import PlayingTag

  /** A signal level on the 0..0xFFFF scale as the whole percentage
      `level / 655` (C division) that CharInfoSignal and CharInfoSNR format. */
  function LevelPercent(level: int): (p: int)
    ensures level >= 0 ==> 0 <= p * 655 <= level < p * 655 + 655
    ensures level < 0 ==> p * 655 - 655 < level <= p * 655 <= 0
    ensures 0 <= level <= 0xFFFF ==> 0 <= p <= 100
  {
    TruncDiv(level, 655)
  }

  /** A cleared string label. */
  const EMPTY: Label := Text([])

  /** The value the disk-space progress query answers while no total is known. */
  const DISKSPACE_SENTINEL := 0xFF

  /** The playback flags and the playing client's name that UpdateMisc writes
      together: m_bHasTVRecordings, m_bHasRadioRecordings, m_bIsPlayingTV,
      m_bIsPlayingRadio, m_bIsPlayingRecording, m_bIsPlayingEpgTag,
      m_bIsPlayingEncryptedStream, m_bIsRecordingPlayingChannel,
      m_bCanRecordPlayingChannel, m_bHasTVChannels, m_bHasRadioChannels and
      m_strPlayingClientName. */
  datatype PlaybackFlags = PlaybackFlags(
    hasTVRecordings: bool, hasRadioRecordings: bool,
    isPlayingTV: bool, isPlayingRadio: bool, isPlayingRecording: bool, isPlayingEpgTag: bool,
    isPlayingEncryptedStream: bool, isRecordingPlayingChannel: bool, canRecordPlayingChannel: bool,
    hasTVChannels: bool, hasRadioChannels: bool,
    playingClientName: string)

  /** Every flag off, no client name. */
  const NO_PLAYBACK := PlaybackFlags(false, false, false, false, false, false, false, false, false, false, false, [])

  /** The two levels of m_qualityInfo the model reads (iSignal, iSNR). */
  datatype SignalQuality = SignalQuality(signal: int, snr: int)

  /** ClearQualityInfo: both levels 0. */
  const NO_SIGNAL := SignalQuality(0, 0)

  class GuiInfo {
    // timer summaries (m_anyTimersInfo, m_tvTimersInfo, m_radioTimersInfo)
    var anyTimers: TimerSummary
    var tvTimers: TimerSummary
    var radioTimers: TimerSummary

    var flags: PlaybackFlags
    var quality: SignalQuality

    /** m_bHasTimeshiftData, m_bIsTimeshifting, m_iStartTime, m_iTimeshiftStartTime,
        m_iTimeshiftEndTime, m_iTimeshiftPlayTime, m_iLastTimeshiftUpdate, m_iTimeshiftOffset */
    var timeshift: Timeshift.Window

    /** m_playingEpgTag, m_iDuration */
    var playing: PlayingTag.PlayingState

    // backend cache: m_iCurrentActiveClient, m_backendProperties, m_updateBackendCacheRequested
    var currentActiveClient: nat
    var backendProperties: seq<Backend>
    var updateBackendCacheRequested: bool
    /** The backend display fields (m_strBackend*, m_iBackendDiskTotal, m_iBackendDiskUsed). */
    var shown: BackendCache.BackendView

    /** The active backend index addresses an entry of the list, or is 0. */
    predicate BackendIndexValid()
      reads this`currentActiveClient, this`backendProperties
    {
      currentActiveClient == 0 || currentActiveClient < |backendProperties|
    }

    predicate Valid()
      reads this`currentActiveClient, this`backendProperties, this`timeshift, this`playing
    {
      BackendIndexValid() && Timeshift.Inv(timeshift) && PlayingTag.Inv(playing)
    }

    constructor ()
      ensures Valid()
      ensures anyTimers == NO_TIMERS && tvTimers == NO_TIMERS && radioTimers == NO_TIMERS
      ensures flags == NO_PLAYBACK && quality == NO_SIGNAL
      ensures backendProperties == [] && currentActiveClient == 0 && !updateBackendCacheRequested
      ensures shown == BackendCache.CLEARED_VIEW
      ensures Timeshift.IsEmpty(timeshift) && timeshift.lastUpdate == 0
      ensures playing == PlayingTag.RESET
    {
      backendProperties := [];
      timeshift := Timeshift.Window(false, false, 0, 0, 0, 0, 0, 0);
      new;
      ResetProperties();
    }

    /** Puts every snapshot field back to its default. The backend list and the
        time of the last time-shift update are not touched. */
    method ResetProperties()
      modifies this
      ensures Valid()
      ensures anyTimers == NO_TIMERS && tvTimers == NO_TIMERS && radioTimers == NO_TIMERS
      ensures flags == NO_PLAYBACK && quality == NO_SIGNAL
      ensures currentActiveClient == 0 && !updateBackendCacheRequested
      ensures shown == BackendCache.CLEARED_VIEW
      ensures Timeshift.IsEmpty(timeshift) && timeshift.lastUpdate == old(timeshift.lastUpdate)
      ensures playing == PlayingTag.RESET
      ensures backendProperties == old(backendProperties)
    {
      anyTimers, tvTimers, radioTimers := NO_TIMERS, NO_TIMERS, NO_TIMERS;
      flags := NO_PLAYBACK;
      currentActiveClient := 0;
      shown := BackendCache.CLEARED_VIEW;
      playing := playing.(duration := 0);
      timeshift := timeshift.(hasData := false, isTimeshifting := false, startTime := 0,
                              tsStart := 0, tsEnd := 0, tsPlay := 0, offset := 0);
      ResetPlayingTag();
      quality := NO_SIGNAL;
      updateBackendCacheRequested := false;
    }

    /** One poll of the time-shift window: `isPlaying` says whether TV or radio
        plays, `clock` holds what the data cache core and the clock report. */
    method UpdateTimeshift(isPlaying: bool, clock: Timeshift.ClockReading)
      requires Valid()
      modifies this`timeshift
      ensures Valid()
      ensures timeshift == Timeshift.Step(old(timeshift), Timeshift.Cycle(isPlaying, clock))
    {
      Timeshift.StepKeepsInv(timeshift, Timeshift.Cycle(isPlaying, clock));
      if !isPlaying {
        if timeshift.hasData {
          timeshift := Timeshift.Window(false, false, 0, 0, 0, 0, 0, 0);
        }
        return;
      }

      var bIsTimeshifting := clock.isTimeshifting;
      var now := clock.now;
      var iStartTime := clock.startTime;
      var iPlayTime := MsToSeconds(clock.playTimeMs);
      var iMinTime := if bIsTimeshifting then MsToSeconds(clock.minTimeMs) else 0;
      var iMaxTime := if bIsTimeshifting then MsToSeconds(clock.maxTimeMs) else 0;
      var bPlaying := clock.normalSpeed;

      timeshift := timeshift.(lastUpdate := now);

      if iStartTime == 0 {
        if timeshift.startTime == 0 {
          iStartTime := now;
        } else {
          iStartTime := timeshift.startTime;
        }
      }

      timeshift := timeshift.(isTimeshifting := bIsTimeshifting, startTime := iStartTime,
                              tsStart := iStartTime + iMinTime, tsEnd := iStartTime + iMaxTime);

      if timeshift.tsEnd > timeshift.tsStart {
        // time-shifting supported
        timeshift := timeshift.(tsPlay := iStartTime + iPlayTime);
      } else if bPlaying {
        // time-shifting not supported
        timeshift := timeshift.(tsPlay := now - timeshift.offset);
      }

      timeshift := timeshift.(offset := now - timeshift.tsPlay);

      timeshift := timeshift.(hasData := true);
    }

    /** One refresh of the backend display fields. `reported` is the list the
        PVR clients return when asked for their backend properties; it is
        taken only at index 0 and when a refresh was requested. */
    method UpdateBackendCache(reported: seq<Backend>)
      requires Valid()
      modifies this`backendProperties, this`updateBackendCacheRequested, this`currentActiveClient, this`shown
      ensures Valid()
      ensures var refreshed := old(currentActiveClient) == 0 && old(updateBackendCacheRequested);
        backendProperties == (if refreshed then reported else old(backendProperties)) &&
        updateBackendCacheRequested == (old(updateBackendCacheRequested) && !refreshed)
      ensures shown == BackendCache.Shown(backendProperties, old(currentActiveClient))
      ensures currentActiveClient == BackendCache.NextClient(old(currentActiveClient), |backendProperties|)
    {
      if currentActiveClient == 0 && updateBackendCacheRequested {
        backendProperties := reported;
        updateBackendCacheRequested := false;
      }

      // the placeholders
      shown := shown.(name := UNKNOWN, version := UNKNOWN, host := UNKNOWN,
                      channels := UNKNOWN, timers := UNKNOWN, recordings := UNKNOWN,
                      deletedRecordings := UNKNOWN, diskTotal := 0, diskUsed := 0);

      // the values of the current backend, when there is one
      if backendProperties != [] {
        var backend := backendProperties[currentActiveClient];

        shown := shown.(name := Text(backend.name), version := Text(backend.version),
                        host := Text(backend.host));

        if backend.numChannels >= 0 {
          shown := shown.(channels := Decimal(backend.numChannels));
        }
        if backend.numTimers >= 0 {
          shown := shown.(timers := Decimal(backend.numTimers));
        }
        if backend.numRecordings >= 0 {
          shown := shown.(recordings := Decimal(backend.numRecordings));
        }
        if backend.numDeletedRecordings >= 0 {
          shown := shown.(deletedRecordings := Decimal(backend.numDeletedRecordings));
        }

        shown := shown.(diskTotal := backend.diskTotal, diskUsed := backend.diskUsed);
        assert shown == BackendCache.ViewOf(backend);
      }

      // advance, wrapping around
      if currentActiveClient + 1 >= |backendProperties| {
        currentActiveClient := 0;
      } else {
        currentActiveClient := currentActiveClient + 1;
      }
    }

    // The backend labels: each asks for a backend cache refresh.

    method CharInfoBackendName() returns (s: Label)
      modifies this`updateBackendCacheRequested
      ensures updateBackendCacheRequested && s == shown.name
    {
      updateBackendCacheRequested := true;
      s := shown.name;
    }

    method CharInfoBackendVersion() returns (s: Label)
      modifies this`updateBackendCacheRequested
      ensures updateBackendCacheRequested && s == shown.version
    {
      updateBackendCacheRequested := true;
      s := shown.version;
    }

    method CharInfoBackendHost() returns (s: Label)
      modifies this`updateBackendCacheRequested
      ensures updateBackendCacheRequested && s == shown.host
    {
      updateBackendCacheRequested := true;
      s := shown.host;
    }

    /** Free and total disk space while a total is known, else the placeholder. */
    method CharInfoBackendDiskspace() returns (s: Label)
      modifies this`updateBackendCacheRequested
      ensures updateBackendCacheRequested
      ensures shown.diskTotal > 0 ==> s == FreeOfTotal(shown.diskTotal - shown.diskUsed, shown.diskTotal)
      ensures shown.diskTotal <= 0 ==> s == UNKNOWN
    {
      updateBackendCacheRequested := true;

      var diskTotal := shown.diskTotal;
      var diskUsed := shown.diskUsed;

      if diskTotal > 0 {
        s := FreeOfTotal(diskTotal - diskUsed, diskTotal);
      } else {
        s := UNKNOWN;
      }
    }

    method CharInfoBackendChannels() returns (s: Label)
      modifies this`updateBackendCacheRequested
      ensures updateBackendCacheRequested && s == shown.channels
    {
      updateBackendCacheRequested := true;
      s := shown.channels;
    }

    method CharInfoBackendTimers() returns (s: Label)
      modifies this`updateBackendCacheRequested
      ensures updateBackendCacheRequested && s == shown.timers
    {
      updateBackendCacheRequested := true;
      s := shown.timers;
    }

    method CharInfoBackendRecordings() returns (s: Label)
      modifies this`updateBackendCacheRequested
      ensures updateBackendCacheRequested && s == shown.recordings
    {
      updateBackendCacheRequested := true;
      s := shown.recordings;
    }

    method CharInfoBackendDeletedRecordings() returns (s: Label)
      modifies this`updateBackendCacheRequested
      ensures updateBackendCacheRequested && s == shown.deletedRecordings
    {
      updateBackendCacheRequested := true;
      s := shown.deletedRecordings;
    }

    /** "<index + 1> of <count>" while backends are known; it does not ask for a refresh. */
    function CharInfoBackendNumber(): (l: Label)
      reads this`currentActiveClient, this`backendProperties
      ensures backendProperties == [] <==> l == NO_BACKENDS
      ensures backendProperties != [] ==> l == BackendCache.PositionOf(currentActiveClient, |backendProperties|)
      ensures BackendIndexValid() && backendProperties != [] ==>
        l.Position? && 1 <= l.index <= l.count == |backendProperties|
    {
      if |backendProperties| > 0 then BackendCache.PositionOf(currentActiveClient, |backendProperties|)
      else NO_BACKENDS
    }

    /** Drops the playing tag and its duration. */
    method ResetPlayingTag()
      modifies this`playing
      ensures playing == PlayingTag.RESET && PlayingTag.Inv(playing)
    {
      playing := playing.(tag := None, duration := 0);
    }

    /** One poll of the playing tag; `r` holds what the PVR manager reports. */
    method UpdatePlayingTag(r: PlayingTag.PlaybackReading)
      requires Valid()
      modifies this`playing
      ensures Valid()
      ensures playing == PlayingTag.Step(old(playing), timeshift.tsStart, timeshift.tsEnd, r)
    {
      PlayingTag.StepKeepsInv(playing, timeshift.tsStart, timeshift.tsEnd, r);
      if r.channel.Some? || r.epgTag.Some? {
        var epgTag := playing.tag;
        var channel: Option<Channel> := None;
        if epgTag.Some? {
          channel := epgTag.value.channel;
        }

        if epgTag.None? || !r.storedTagActive || channel.None? || r.channel.None? || channel.value != r.channel.value {
          var newTag := if r.epgTag.Some? then r.epgTag else r.channelEpgNow;
          if newTag.Some? {
            playing := playing.(tag := newTag, duration := newTag.value.duration);
          } else if timeshift.tsEnd > timeshift.tsStart {
            playing := playing.(tag := None, duration := timeshift.tsEnd - timeshift.tsStart);
          } else {
            playing := playing.(tag := None, duration := 0);
          }
        }
      } else {
        if r.recording.Some? {
          playing := playing.(tag := None, duration := r.recording.value.duration);
        }
      }
    }

    /** Seconds played of what plays now; never negative. */
    function GetElapsedTime(): (r: int)
      reads this`playing, this`timeshift
      ensures r >= 0
      ensures playing.tag.None? && timeshift.tsStart == 0 ==> r == 0
      ensures playing.tag.Some? ==> r == PlayingTag.ElapsedSeconds(playing.tag, 0, timeshift.tsPlay)
      ensures r > 0 <==> PlayingTag.HasReference(playing.tag, timeshift.tsStart) &&
                         timeshift.tsPlay > PlayingTag.ReferenceStart(playing.tag, timeshift.tsStart)
      ensures r > 0 ==> r == timeshift.tsPlay - PlayingTag.ReferenceStart(playing.tag, timeshift.tsStart)
    {
      PlayingTag.ElapsedSeconds(playing.tag, timeshift.tsStart, timeshift.tsPlay)
    }

    /** Seconds left of the item's event when it shows another one than the
        playing event, else of what plays now. */
    function GetRemainingTime(item: Option<ItemEpg>): (r: int)
      reads this`playing, this`timeshift
      ensures PlayingTag.ShowsOtherTag(item, playing.tag) ==>
        r == item.value.tag.duration - item.value.progress
      ensures !PlayingTag.ShowsOtherTag(item, playing.tag) ==>
        r + GetElapsedTime() == playing.duration && r <= playing.duration
    {
      if PlayingTag.ShowsOtherTag(item, playing.tag) then
        item.value.tag.duration - item.value.progress
      else
        playing.duration - GetElapsedTime()
    }

    /** The signal percentage label's number. */
    function CharInfoSignal(): (p: int)
      reads this`quality
      ensures 0 <= quality.signal <= 0xFFFF ==>
        0 <= p <= 100 && p * 655 <= quality.signal < p * 655 + 655
    {
      LevelPercent(quality.signal)
    }

    /** The signal-to-noise percentage label's number. */
    function CharInfoSNR(): (p: int)
      reads this`quality
      ensures 0 <= quality.snr <= 0xFFFF ==>
        0 <= p <= 100 && p * 655 <= quality.snr < p * 655 + 655
    {
      LevelPercent(quality.snr)
    }

    /** The boolean lookup: answers the PVR boolean labels from the snapshot
        and leaves `bValue` as it was for every other label. */
    function GetPVRBool(info: InfoLabel, bValue: bool): (r: Reply<bool>)
      reads this`anyTimers, this`tvTimers, this`radioTimers, this`flags, this`timeshift
      ensures r.handled <==> IsPvrBoolLabel(info)
      ensures !r.handled ==> r.value == bValue
    {
      match info
      case PvrIsRecording => Reply(true, anyTimers.hasRecordingTimers)
      case PvrIsRecordingTv => Reply(true, tvTimers.hasRecordingTimers)
      case PvrIsRecordingRadio => Reply(true, radioTimers.hasRecordingTimers)
      case PvrHasTimer => Reply(true, anyTimers.hasTimers)
      case PvrHasTvTimer => Reply(true, tvTimers.hasTimers)
      case PvrHasRadioTimer => Reply(true, radioTimers.hasTimers)
      case PvrHasTvChannels => Reply(true, flags.hasTVChannels)
      case PvrHasRadioChannels => Reply(true, flags.hasRadioChannels)
      case PvrHasNonrecordingTimer => Reply(true, anyTimers.hasNonRecordingTimers)
      case PvrHasNonrecordingTvTimer => Reply(true, tvTimers.hasNonRecordingTimers)
      case PvrHasNonrecordingRadioTimer => Reply(true, radioTimers.hasNonRecordingTimers)
      case PvrIsPlayingTv => Reply(true, flags.isPlayingTV)
      case PvrIsPlayingRadio => Reply(true, flags.isPlayingRadio)
      case PvrIsPlayingRecording => Reply(true, flags.isPlayingRecording)
      case PvrIsPlayingEpgtag => Reply(true, flags.isPlayingEpgTag)
      case PvrActualStreamEncrypted => Reply(true, flags.isPlayingEncryptedStream)
      case PvrIsTimeshifting => Reply(true, timeshift.isTimeshifting)
      case PvrCanRecordPlayingChannel => Reply(true, flags.canRecordPlayingChannel)
      case PvrIsRecordingPlayingChannel => Reply(true, flags.isRecordingPlayingChannel)
      case _ => Reply(false, bValue)
    }

    /** After ResetProperties every boolean label the lookup answers is false. */
    lemma ResetAnswersFalse(info: InfoLabel, bValue: bool)
      requires anyTimers == NO_TIMERS && tvTimers == NO_TIMERS && radioTimers == NO_TIMERS
      requires flags == NO_PLAYBACK && Timeshift.IsEmpty(timeshift)
      ensures GetPVRBool(info, bValue).handled ==> !GetPVRBool(info, bValue).value
    {
    }

    /** The integer lookup. `percent(num, den)` stands for the float rounding
        `lrintf((float)num / den * 100)`, which the model does not compute. */
    function GetPVRInt(item: Option<ItemEpg>, info: InfoLabel, iValue: int, percent: (int, int) -> int): (r: Reply<int>)
      reads this`playing, this`timeshift, this`quality, this`shown
      ensures r.handled <==> IsPvrIntLabel(info)
      ensures !r.handled ==> r.value == iValue
      ensures info == PvrEpgEventDuration ==>
        r.value == (if PlayingTag.ShowsOtherTag(item, playing.tag) then item.value.tag.duration else playing.duration)
      ensures info == PvrEpgEventProgress ==>
        r.value == (if PlayingTag.ShowsOtherTag(item, playing.tag) then item.value.progressPercent
                    else percent(GetElapsedTime(), playing.duration))
      ensures info == PvrTimeshiftProgress ==>
        r.value == percent(timeshift.tsPlay - timeshift.tsStart, timeshift.tsEnd - timeshift.tsStart)
      ensures info == PvrActualStreamSigProgr ==> r.value == percent(quality.signal, 0xFFFF)
      ensures info == PvrActualStreamSnrProgr ==> r.value == percent(quality.snr, 0xFFFF)
      ensures info == PvrBackendDiskspaceProgr && shown.diskTotal <= 0 ==> r.value == DISKSPACE_SENTINEL
      ensures info == PvrBackendDiskspaceProgr && shown.diskTotal > 0 ==>
        r.value == percent(shown.diskUsed, shown.diskTotal)
    {
      match info
      case PvrEpgEventDuration =>
        if PlayingTag.ShowsOtherTag(item, playing.tag) then Reply(true, item.value.tag.duration)
        else Reply(true, playing.duration)
      case PvrEpgEventProgress =>
        if PlayingTag.ShowsOtherTag(item, playing.tag) then Reply(true, item.value.progressPercent)
        else Reply(true, percent(GetElapsedTime(), playing.duration))
      case PvrTimeshiftProgress =>
        Reply(true, percent(timeshift.tsPlay - timeshift.tsStart, timeshift.tsEnd - timeshift.tsStart))
      case PvrActualStreamSigProgr => Reply(true, percent(quality.signal, 0xFFFF))
      case PvrActualStreamSnrProgr => Reply(true, percent(quality.snr, 0xFFFF))
      case PvrBackendDiskspaceProgr =>
        if shown.diskTotal > 0 then Reply(true, percent(shown.diskUsed, shown.diskTotal))
        else Reply(true, DISKSPACE_SENTINEL)
      case _ => Reply(false, iValue)
    }
  }
}
