/** Values shared by the PVR GUI info model: what the upstream PVR manager
    reports (backends, channels, EPG tags, recordings), the display labels the
    cache stores, the GUI info labels it answers for, and C's integer division. */
module PvrTypes {

  datatype Option<+T> = None | Some(value: T)

  /** The answer of a typed lookup: whether the label was handled, and the
      value of the output parameter afterwards. */
  datatype Reply<+T> = Reply(handled: bool, value: T)

  /** C and C++ integer division truncates toward zero (Dafny's `/` is Euclidean). */
  function TruncDiv(a: int, b: int): int
    requires b > 0
  {
    if a >= 0 then a / b else -((-a) / b)
  }

  /** A time in milliseconds as the whole seconds `ms / 1000` keeps in C. */
  function MsToSeconds(ms: int): (s: int)
    ensures ms >= 0 ==> 0 <= s * 1000 <= ms < s * 1000 + 1000
    ensures ms < 0 ==> s * 1000 - 1000 < ms <= s * 1000 <= 0
  {
    TruncDiv(ms, 1000)
  }

  lemma MsToSecondsMonotonic(ms: int, ms': int)
    requires ms <= ms'
    ensures MsToSeconds(ms) <= MsToSeconds(ms')
  {
  }

  /** A text shown by the GUI. Only what the cache decides is modelled:
      localized strings are referred to by their string id, and the
      formatting of numbers and sizes is kept symbolic. */
  datatype Label =
    | Text(s: string)                   // a string copied from upstream
    | Localized(stringId: nat)          // g_localizeStrings.Get(stringId)
    | Decimal(n: int)                   // Format("%i", n)
    | Position(index: int, count: int)  // "<index> of <count>" (string 20163)
    | FreeOfTotal(free: int, total: int) // string 802 with two formatted sizes

  /** The placeholder for a value that is not known ("Unknown", string 13205). */
  const UNKNOWN: Label := Localized(13205)
  /** Shown by the backend-number label when no backend is known (string 14023). */
  const NO_BACKENDS: Label := Localized(14023)

  /** One entry of the backend property list reported by the PVR clients (SBackend). */
  datatype Backend = Backend(
    name: string, version: string, host: string,
    numTimers: int, numRecordings: int, numDeletedRecordings: int, numChannels: int,
    diskUsed: int, diskTotal: int)

  /** A channel, compared by value as `*channel != *currentChannel` does. */
  datatype Channel = Channel(clientId: int, uniqueId: int)

  /** An EPG event: its start (UTC seconds), its duration in seconds and its channel. */
  datatype EpgTag = EpgTag(uid: int, channel: Option<Channel>, startUtc: int, duration: int)

  /** A recording being played back: only its duration is read. */
  datatype Recording = Recording(duration: int)

  /** The EPG data of the list item a query is asked about, when the item is a
      channel or an EPG entry and has a tag: the tag, its Progress() in seconds
      and its ProgressPercentage() as already rounded by lrintf. */
  datatype ItemEpg = ItemEpg(tag: EpgTag, progress: int, progressPercent: int)

  /** The three flags a timer summary (any / TV / radio) answers. */
  datatype TimerSummary = TimerSummary(hasTimers: bool, hasRecordingTimers: bool, hasNonRecordingTimers: bool)

  const NO_TIMERS := TimerSummary(false, false, false)

  /** The GUI info labels the PVR boolean and integer lookups dispatch on.
      Every other label of the GUI info manager is `Unlisted`. */
  datatype InfoLabel =
    // booleans
    | PvrIsRecording | PvrIsRecordingTv | PvrIsRecordingRadio
    | PvrHasTimer | PvrHasTvTimer | PvrHasRadioTimer
    | PvrHasTvChannels | PvrHasRadioChannels
    | PvrHasNonrecordingTimer | PvrHasNonrecordingTvTimer | PvrHasNonrecordingRadioTimer
    | PvrIsPlayingTv | PvrIsPlayingRadio | PvrIsPlayingRecording | PvrIsPlayingEpgtag
    | PvrActualStreamEncrypted | PvrIsTimeshifting
    | PvrCanRecordPlayingChannel | PvrIsRecordingPlayingChannel
    // integers
    | PvrEpgEventDuration | PvrEpgEventProgress | PvrTimeshiftProgress
    | PvrActualStreamSigProgr | PvrActualStreamSnrProgr | PvrBackendDiskspaceProgr
    // everything else
    | Unlisted(code: int)

  predicate IsPvrIntLabel(l: InfoLabel)
  {
    l.PvrEpgEventDuration? || l.PvrEpgEventProgress? || l.PvrTimeshiftProgress? ||
    l.PvrActualStreamSigProgr? || l.PvrActualStreamSnrProgr? || l.PvrBackendDiskspaceProgr?
  }

  predicate IsPvrBoolLabel(l: InfoLabel)
  {
    !IsPvrIntLabel(l) && !l.Unlisted?
  }
}
