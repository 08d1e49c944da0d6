# PVR GUI info cache (Kodi `CPVRGUIInfo`)

This project models the snapshot cache that Kodi's PVR subsystem keeps for the
GUI (`xbmc/pvr/PVRGUIInfo.cpp`). A polling thread refreshes the snapshot once a
second. The GUI then reads the snapshot through typed lookups without asking
the PVR manager again. The model covers:

- the **time-shift window** (`UpdateTimeshift`): start, end and play times and
  the offset, computed from the playback clock; a start time that the player
  does not report is taken from "now" once and then held;
- the **round-robin backend cache** (`UpdateBackendCache`): the backend list is
  fetched again only when a label asked for it and the index is back at 0; the
  display fields are set to placeholders and then overwritten from the current
  backend; the index then advances and wraps;
- the **backend labels** (`CharInfoBackend*`): each one asks for a refresh;
- the **playing tag and its duration** (`UpdatePlayingTag`, `ResetPlayingTag`);
- the **derived values**: elapsed and remaining time, the signal percentages,
  and the disk-space sentinel;
- the **boolean and integer lookups** (`GetPVRBool`, `GetPVRInt`), which answer
  "not handled" for labels they do not know;
- **`ResetProperties`**, which puts the snapshot back to its defaults;
- the **poll-loop counter** of `Process`: the backend cache is refreshed when
  `mLoop % toggleInterval == 0`, and `mLoop` wraps at 1000.

Layout:

- `pvr_types.dfy` holds the values shared by all modules: backends, channels,
  EPG tags, labels, info-label ids and C's truncating division.
- `timeshift.dfy` holds the time-shift window as a value, the step one cycle
  applies, and the lemmas about runs of cycles.
- `backend_cache.dfy` holds the backend view, the count labels, the index
  step, and the round-robin lemmas.
- `playing_tag.dfy` holds the playing-tag step and the elapsed and remaining
  time.
- `pvr_gui_info.dfy` holds the class `GuiInfo`. Its methods change the snapshot
  in place. The contracts of `UpdateTimeshift`, `UpdateBackendCache` and
  `UpdatePlayingTag` tie the new state to the step functions above. The
  contracts of `ResetProperties`, `ResetPlayingTag` and the `CharInfoBackend*`
  methods give the new state directly. The three update methods and
  `ResetProperties` keep the invariant `Valid()`, which has three parts:
  - the backend index is in bounds;
  - the time-shift window is empty until data arrives, and after that its
    offset equals last update minus play time;
  - a stored tag carries its own duration.
- `poll_loop.dfy` holds the `Process` counter as a loop over a number of
  cycles.

Every upstream query becomes a parameter:
- `Timeshift.ClockReading` stands for the data cache core, the wall clock and
  `IsTimeshifting()`;
- `PlayingTag.PlaybackReading` stands for the playing channel, tag, recording
  and the channel's current EPG event;
- the `reported` backend list stands for `GetBackendProperties()`.

Localized strings are kept as their string ids (`Localized(13205)` is
"Unknown"). Number formatting is kept symbolic (`Decimal(n)`,
`Position(i, n)`, `FreeOfTotal(free, total)`).

Some fields that the source declares one by one are grouped into
datatype-valued fields of the class:
- the eight time-shift members become `timeshift`;
- `m_playingEpgTag` and `m_iDuration` become `playing`;
- the nine backend display members become `shown`;
- the flags written together by `UpdateMisc` become `flags`;
- `m_qualityInfo` becomes `quality`.

`UpdateTimeshift`, `UpdateBackendCache` and `UpdatePlayingTag` still update
these fields component by component, in the source's order.
`ResetProperties` assigns whole groups at once: `flags`, `shown` and
`quality`. Its order also differs from the source's, which resets
`m_iDuration` between the backend fields and the playback flags. Nothing
reads the snapshot between those assignments, so only the final state
matters.

The poll loop's schedule around the wrap (`PollLoop.WrapGap`) works as
follows for an interval `t`:
- the last refresh before the wrap comes at counter `999 - 999 % t`;
- the next one comes at counter 0 after the wrap, `1 + 999 % t` cycles later;
- that gap equals `t` exactly when `t` divides 1000, and then the schedule is
  regular (`PollLoop.RefreshEveryInterval`).

With the default interval of 3 seconds the gap is 1, so cycles 999 and 1000
both refresh the backend cache.

`UpdateBackendCache` advances the index right after it fills the display. So
between refreshes, the backend-number label (`CharInfoBackendNumber`) names
the backend after the one whose name, host and counts are shown. With two or
more backends it never names the shown one
(`BackendCache.NumberNamesNextBackend`).

## Model

| member | source | states |
|---|---|---|
| PvrTypes.MsToSeconds | xbmc/pvr/PVRGUIInfo.cpp:310-312 | a millisecond time divided by 1000 as C does: truncated toward zero, within one second of the exact value |
| Timeshift.EffectiveStart | xbmc/pvr/PVRGUIInfo.cpp:319-325 | the start time used is the reported one when it is set, otherwise the stored one, otherwise "now" |
| Timeshift.StepKeepsInv | xbmc/pvr/PVRGUIInfo.cpp:287-346 | every cycle keeps the window invariant: empty without data, and offset == last update − play time with data |
| Timeshift.IdleCycleEmptiesWindow | xbmc/pvr/PVRGUIInfo.cpp:289-305 | a cycle without TV or radio playing zeroes every field of the window; with data it also zeroes the last-update time, and without data it changes nothing; a second idle cycle changes nothing |
| Timeshift.PlayingCycleBounds | xbmc/pvr/PVRGUIInfo.cpp:315-345 | after a playing cycle the window has data, was updated "now", tsStart/tsEnd are start plus min/max (both 0 without time-shift), and offset == now − play time |
| Timeshift.StartTimeHeld | xbmc/pvr/PVRGUIInfo.cpp:319-328 | once a start time is stored, cycles whose reported start time is 0 keep it, over any number of cycles |
| Timeshift.FirstObservedStartHeld | xbmc/pvr/PVRGUIInfo.cpp:319-328 | the first such cycle stores "now" as the start time, and later cycles keep it |
| Timeshift.OffsetHeldAtNormalSpeed | xbmc/pvr/PVRGUIInfo.cpp:334-343 | without time-shift support, playing at normal speed keeps the offset over any run of cycles |
| Timeshift.PausedPlayTimeFrozen | xbmc/pvr/PVRGUIInfo.cpp:329-343 | without time-shift support and not at normal speed, the play time is unchanged and the offset grows with the clock |
| Timeshift.PlayTimeInsideBuffer | xbmc/pvr/PVRGUIInfo.cpp:307-337 | with a time-shift buffer, a play position between min and max lands between tsStart and tsEnd |
| BackendCache.DefaultView | xbmc/pvr/PVRGUIInfo.cpp:1663-1672 | the defaults: every backend label is the "Unknown" placeholder and the disk figures are 0 |
| BackendCache.CountLabel | xbmc/pvr/PVRGUIInfo.cpp:1683-1693 | a count is shown in decimal exactly when it is >= 0; a negative count keeps the placeholder |
| BackendCache.NextClient | xbmc/pvr/PVRGUIInfo.cpp:1699-1701 | the next index stays below the list size (0 for an empty list) and is (index + 1) mod size |
| BackendCache.ClientAfterCountsUp | xbmc/pvr/PVRGUIInfo.cpp:1699-1701 | starting at 0, the first N refreshes over a fixed list of N backends use indices 0, 1, …, N−1 |
| BackendCache.ClientAfterPeriodic | xbmc/pvr/PVRGUIInfo.cpp:1699-1701 | over a fixed list of N backends the index repeats every N refreshes |
| BackendCache.NumberNamesNextBackend | xbmc/pvr/PVRGUIInfo.cpp:1482-1490 | after a refresh that showed backend i of two or more, the backend-number label gives position i + 2 (1 after the last), never the shown backend's position i + 1 |
| BackendCache.EveryBackendShownInTurn | xbmc/pvr/PVRGUIInfo.cpp:1674-1701 | refresh k (k < N) shows backend k, every index is in bounds, and the cycle repeats |
| PlayingTag.StepKeepsInv | xbmc/pvr/PVRGUIInfo.cpp:1756-1800 | UpdatePlayingTag keeps "a stored tag carries its own duration" |
| PlayingTag.DurationSources | xbmc/pvr/PVRGUIInfo.cpp:1773-1798 | the duration after a tag change is the new tag's duration, else tsEnd − tsStart when positive, else 0; a playing recording gives its duration and clears the tag; otherwise nothing changes |
| PlayingTag.DurationNonNegative | xbmc/pvr/PVRGUIInfo.cpp:1773-1798 | durations stay >= 0 when the upstream durations are >= 0 |
| PlayingTag.ElapsedSeconds | xbmc/pvr/PVRGUIInfo.cpp:1725-1741 | the elapsed time is never negative, is 0 without a tag or a time-shift start, and is positive exactly when the play time is past the reference start, which it then reaches |
| PlayingTag.RemainingWithinEvent | xbmc/pvr/PVRGUIInfo.cpp:1458-1468 | while playing inside the tag's span, the remaining time lies between 0 and the duration |
| PlayingTag.RemainingWithinBuffer | xbmc/pvr/PVRGUIInfo.cpp:1458-1468 | without a tag, after the duration was taken from the buffer, playing inside the buffer leaves between 0 and the buffer's length |
| PvrGuiInfo.LevelPercent | xbmc/pvr/PVRGUIInfo.cpp:1497-1505 | level / 655 as C divides; a level in 0..0xFFFF gives a percentage in 0..100 |
| PvrGuiInfo.GuiInfo.constructor | xbmc/pvr/PVRGUIInfo.cpp:54-58 | a new cache is valid and at every default the reset sets: no timers, no playback flags, no signal quality, cleared backend labels, no backends, no request, an empty window and no playing tag |
| PvrGuiInfo.GuiInfo.ResetProperties | xbmc/pvr/PVRGUIInfo.cpp:63-107 | every snapshot field is back at its default and the invariant holds; the backend list and the last time-shift update time are untouched |
| PvrGuiInfo.GuiInfo.UpdateTimeshift | xbmc/pvr/PVRGUIInfo.cpp:287-346 | the new window is Timeshift.Step of the old one, the invariant is kept, and nothing outside the window changes |
| PvrGuiInfo.GuiInfo.UpdateBackendCache | xbmc/pvr/PVRGUIInfo.cpp:1645-1702 | the list is replaced and the request cleared exactly when the index was 0 and a refresh was requested; the display shows the defaults for an empty list, else the backend at the old index; the index advances and wraps, and stays in bounds |
| PvrGuiInfo.GuiInfo.CharInfoBackendName | xbmc/pvr/PVRGUIInfo.cpp:1533-1537 | asks for a refresh and returns the cached name |
| PvrGuiInfo.GuiInfo.CharInfoBackendVersion | xbmc/pvr/PVRGUIInfo.cpp:1539-1543 | asks for a refresh and returns the cached version |
| PvrGuiInfo.GuiInfo.CharInfoBackendHost | xbmc/pvr/PVRGUIInfo.cpp:1545-1549 | asks for a refresh and returns the cached host |
| PvrGuiInfo.GuiInfo.CharInfoBackendDiskspace | xbmc/pvr/PVRGUIInfo.cpp:1551-1566 | asks for a refresh; free-of-total while the total is > 0, else the placeholder |
| PvrGuiInfo.GuiInfo.CharInfoBackendChannels | xbmc/pvr/PVRGUIInfo.cpp:1568-1572 | asks for a refresh and returns the cached channel count |
| PvrGuiInfo.GuiInfo.CharInfoBackendTimers | xbmc/pvr/PVRGUIInfo.cpp:1574-1578 | asks for a refresh and returns the cached timer count |
| PvrGuiInfo.GuiInfo.CharInfoBackendRecordings | xbmc/pvr/PVRGUIInfo.cpp:1580-1584 | asks for a refresh and returns the cached recording count |
| PvrGuiInfo.GuiInfo.CharInfoBackendDeletedRecordings | xbmc/pvr/PVRGUIInfo.cpp:1586-1590 | asks for a refresh and returns the cached deleted-recording count |
| PvrGuiInfo.GuiInfo.CharInfoBackendNumber | xbmc/pvr/PVRGUIInfo.cpp:1482-1490 | "no backends" exactly when the list is empty, else position current index + 1 of the list size |
| PvrGuiInfo.GuiInfo.ResetPlayingTag | xbmc/pvr/PVRGUIInfo.cpp:1743-1748 | no tag and duration 0 |
| PvrGuiInfo.GuiInfo.UpdatePlayingTag | xbmc/pvr/PVRGUIInfo.cpp:1756-1800 | the new tag and duration are PlayingTag.Step of the old ones with the current buffer bounds, and the invariant is kept |
| PvrGuiInfo.GuiInfo.GetElapsedTime | xbmc/pvr/PVRGUIInfo.cpp:1725-1741 | never negative; 0 without a tag or a time-shift start; measured from the tag's start when there is a tag; positive exactly when there is a reference start and the play time is past it, and then it is play time − reference start |
| PvrGuiInfo.GuiInfo.GetRemainingTime | xbmc/pvr/PVRGUIInfo.cpp:1458-1468 | for an item showing another event, its duration − progress; otherwise remaining + elapsed == duration, and remaining <= duration |
| PvrGuiInfo.GuiInfo.CharInfoSignal | xbmc/pvr/PVRGUIInfo.cpp:1497-1500 | a signal level in 0..0xFFFF gives a percentage in 0..100 that is level / 655 rounded down |
| PvrGuiInfo.GuiInfo.CharInfoSNR | xbmc/pvr/PVRGUIInfo.cpp:1502-1505 | the same for the signal-to-noise level |
| PvrGuiInfo.GuiInfo.GetPVRBool | xbmc/pvr/PVRGUIInfo.cpp:1305-1370 | answers exactly the 19 PVR boolean labels; for any other label it reports "not handled" and leaves the value alone |
| PvrGuiInfo.GuiInfo.ResetAnswersFalse | xbmc/pvr/PVRGUIInfo.cpp:1305-1370 | after a reset, every boolean label the lookup answers is false |
| PvrGuiInfo.GuiInfo.GetPVRInt | xbmc/pvr/PVRGUIInfo.cpp:1096-1138 | answers exactly the 6 PVR integer labels and leaves the value alone otherwise; gives the item's or the playing duration/progress; disk progress is the sentinel 0xFF when the total is <= 0, so there is no division by zero |
| PollLoop.NextLoop | xbmc/pvr/PVRGUIInfo.cpp:203-204 | below 1000 the counter moves to (mLoop + 1) mod 1000 |
| PollLoop.PollCounter | xbmc/pvr/PVRGUIInfo.cpp:148-205 | after n cycles the counter is n mod 1000, and cycle k refreshes the backend cache exactly when (k mod 1000) mod interval == 0; refreshes are listed in order |
| PollLoop.RefreshEveryInterval | xbmc/pvr/PVRGUIInfo.cpp:199-204 | when the interval divides 1000, cycle k refreshes exactly when k mod interval == 0 |
| PollLoop.WrapGap | xbmc/pvr/PVRGUIInfo.cpp:199-204 | for every interval t: the last refresh of a pass is at counter 999 − 999 mod t, no counter above it refreshes, counter 0 refreshes, and the gap across the wrap is 1 + 999 mod t, which equals t exactly when t divides 1000 |

## Left out

- The polling thread itself is not modelled: sleeps, stop checks, locks, the lock released while the backend list is fetched, observer and info-provider registration (`m_bRegistered`), and the backend refresh request the thread raises when it starts (xbmc/pvr/PVRGUIInfo.cpp:156-157; in the model a new cache has no request, so the first list fetch waits for a backend label to ask). The model runs the steps one after another.
- The end-of-loop `ResetPlayingTag` in `Process` is not modelled. `ResetPlayingTag` is modelled on its own.
- `UpdateMisc`, `UpdateQualityData`, `UpdateDescrambleData`, `UpdateTimersCache`, `UpdateTimersToggle` and `UpdateNextTimer` are not modelled: they copy foreign query results into the snapshot. Their fields appear only as they are reset and read.
- The timer summaries are values with three flags. Their own implementation is not part of this model, so ResetProperties sets them to "no timers".
- The descramble info and the playing TV/radio group names are not modelled.
- GetPVRInt: the float percentages (`lrintf` over a `float` division) are the parameter `percent(num, den)` and are not computed. Only the choice of operands and the integer sentinel branch are exact. Division by a zero duration or an empty buffer in those branches is float behaviour and is not modelled.
- GetPVRBool: the contract fixes which labels are answered and that other labels leave the value alone. Which snapshot field each label reads is stated by the body alone.
- Label dispatch over list items, RDS and player labels is not modelled. Date, time and size formatting and the localized string tables are not modelled either. Strings are kept as string ids and symbolic numbers.
- Integer widths are not modelled. `time_t`, `int` and the `unsigned` loop counter are unbounded integers, and wrap-around is assumed not to occur.
- PollCounter requires a positive toggle interval. A setting below 1000 ms gives interval 0, which the source divides by.
- The source compares EPG tags by `shared_ptr` identity (`epgTag != m_playingEpgTag`). The model compares them by value. Two distinct tag objects with equal contents count as the same tag here.
- `IsActive()` of the stored tag and `GetEPGNow()` of the channel are read as part of the cycle's `PlaybackReading`, not evaluated.
- The header that declares the fields is not part of this model. The constructor assumes the backend list starts empty and the last time-shift update time starts at 0.
- `xbmc/android/jni/ContentResolver.cpp` (JNI calls) and `xbmc/interfaces/python/ContextItemAddonInvoker.cpp` (Python embedding) are not part of this model.
