/** The round-robin backend cache of the PVR GUI info (CPVRGUIInfo::UpdateBackendCache):
    what the display fields show for one backend, and how the active index moves. */
module BackendCache {
  import opened PvrTypes

  /** The backend display fields of the snapshot: m_strBackendName, -Version,
      -Host, -Channels, -Timers, -Recordings, -DeletedRecordings and
      m_iBackendDiskTotal, m_iBackendDiskUsed. */
  datatype BackendView = BackendView(
    name: Label, version: Label, host: Label,
    channels: Label, timers: Label, recordings: Label, deletedRecordings: Label,
    diskTotal: int, diskUsed: int)

  /** What is shown while no backend is known: every label the placeholder, no disk. */
  function DefaultView(): (v: BackendView)
    ensures v.diskTotal == 0 && v.diskUsed == 0
    ensures forall l :: l in ViewLabels(v) ==> l == UNKNOWN
  {
    BackendView(UNKNOWN, UNKNOWN, UNKNOWN, UNKNOWN, UNKNOWN, UNKNOWN, UNKNOWN, 0, 0)
  }

  /** The fields after a reset: every label empty, no disk. */
  const CLEARED_VIEW := BackendView(Text([]), Text([]), Text([]), Text([]), Text([]), Text([]), Text([]), 0, 0)

  function ViewLabels(v: BackendView): seq<Label>
  {
    [v.name, v.version, v.host, v.channels, v.timers, v.recordings, v.deletedRecordings]
  }

  /** A count reported by a backend: shown in decimal when it is known (>= 0);
      a negative count means "not available" and keeps the placeholder. */
  function CountLabel(n: int): (l: Label)
    ensures l != UNKNOWN <==> n >= 0
    ensures l != UNKNOWN ==> l == Decimal(n)
  {
    if n >= 0 then Decimal(n) else UNKNOWN
  }

  /** What is shown for one backend. */
  function ViewOf(b: Backend): BackendView
  {
    BackendView(
      Text(b.name), Text(b.version), Text(b.host),
      CountLabel(b.numChannels), CountLabel(b.numTimers),
      CountLabel(b.numRecordings), CountLabel(b.numDeletedRecordings),
      b.diskTotal, b.diskUsed)
  }

  /** The view shown for a list of backends at a given index. */
  function Shown(backends: seq<Backend>, index: nat): BackendView
    requires backends == [] || index < |backends|
  {
    if backends == [] then DefaultView() else ViewOf(backends[index])
  }

  /** The index after one refresh: the next one, wrapping to 0 past the end. */
  function NextClient(index: nat, count: nat): (r: nat)
    ensures r < count || (r == 0 && count == 0)
    ensures index < count ==> r == (index + 1) % count
  {
    if index + 1 >= count then 0 else index + 1
  }

  /** The index after `k` refreshes from index 0 over a list of `count` backends. */
  function ClientAfter(k: nat, count: nat): nat
  {
    if k == 0 then 0 else NextClient(ClientAfter(k - 1, count), count)
  }

  /** Over a fixed list, the first N refreshes from index 0 move through 0 .. N-1. */
  lemma {:induction false} ClientAfterCountsUp(k: nat, count: nat)
    requires k < count
    ensures ClientAfter(k, count) == k
  {
    if k > 0 {
      ClientAfterCountsUp(k - 1, count);
    }
  }

  /** Over a fixed list of N backends, the index repeats every N refreshes. */
  lemma {:induction false} ClientAfterPeriodic(k: nat, count: nat)
    requires count > 0
    ensures ClientAfter(k + count, count) == ClientAfter(k, count)
  {
    if k == 0 {
      ClientAfterCountsUp(count - 1, count);
    } else {
      ClientAfterPeriodic(k - 1, count);
      assert k + count - 1 == (k - 1) + count;
    }
  }

  /** Over a fixed list of N backends, the first N refreshes show every backend
      once, in list order, and the next N refreshes show them again. */
  lemma EveryBackendShownInTurn(backends: seq<Backend>, k: nat)
    requires backends != []
    ensures ClientAfter(k, |backends|) < |backends|
    ensures k < |backends| ==> Shown(backends, ClientAfter(k, |backends|)) == ViewOf(backends[k])
    ensures ClientAfter(k + |backends|, |backends|) == ClientAfter(k, |backends|)
  {
    if k < |backends| {
      ClientAfterCountsUp(k, |backends|);
    }
    ClientAfterPeriodic(k, |backends|);
  }

  /** The backend-number label for an index: its 1-based position in the list. */
  function PositionOf(index: nat, count: nat): (l: Label)
    ensures l.Position? && l.count == count && l.index - 1 == index
  {
    Position(index + 1, count)
  }

  /** A refresh advances the index right after filling the display, so with two
      or more backends the backend-number label names the backend after the one
      shown (the first one after the last), never the shown one. */
  lemma NumberNamesNextBackend(backends: seq<Backend>, shownIndex: nat)
    requires |backends| >= 2 && shownIndex < |backends|
    ensures var next := NextClient(shownIndex, |backends|);
      PositionOf(next, |backends|).index != shownIndex + 1 &&
      PositionOf(next, |backends|).index == (if shownIndex + 1 < |backends| then shownIndex + 2 else 1)
  {
  }
}
