/** The loop counter of the PVR GUI info's polling thread (CPVRGUIInfo::Process):
    every cycle runs the update steps, the backend cache only on cycles whose
    counter is a multiple of the toggle interval, and the counter wraps at 1000. */
module PollLoop {

  /** `mLoop` goes back to 0 when it reaches this value. */
  const LOOP_WRAP := 1000

  /** The backend cache is refreshed on this cycle (`mLoop % toggleInterval == 0`). */
  predicate BackendCacheDue(mLoop: nat, toggleInterval: int)
    requires toggleInterval > 0
  {
    mLoop % toggleInterval == 0
  }

  /** The counter after one cycle: incremented, and reset when it reaches 1000. */
  function NextLoop(mLoop: nat): (r: nat)
    ensures mLoop < LOOP_WRAP ==> r < LOOP_WRAP && r == (mLoop + 1) % LOOP_WRAP
    ensures mLoop >= LOOP_WRAP ==> r == mLoop + 1
  {
    if mLoop + 1 == LOOP_WRAP then 0 else mLoop + 1
  }

  /** Runs the loop for `cycles` cycles from a fresh counter and returns the
      final counter and the cycles (numbered from 0) that refreshed the
      backend cache, in order. */
  method PollCounter(cycles: nat, toggleInterval: int) returns (mLoop: nat, refreshes: seq<nat>)
    requires toggleInterval > 0
    ensures mLoop == cycles % LOOP_WRAP
    ensures forall k :: 0 <= k < cycles ==> (k in refreshes <==> BackendCacheDue(k % LOOP_WRAP, toggleInterval))
    ensures forall i :: 0 <= i < |refreshes| ==> refreshes[i] < cycles
    ensures forall i, j :: 0 <= i < j < |refreshes| ==> refreshes[i] < refreshes[j]
  {
    mLoop := 0;
    refreshes := [];
    var cycle := 0;
    while cycle < cycles
      invariant cycle <= cycles
      invariant mLoop == cycle % LOOP_WRAP
      invariant forall k :: 0 <= k < cycle ==> (k in refreshes <==> BackendCacheDue(k % LOOP_WRAP, toggleInterval))
      invariant forall i :: 0 <= i < |refreshes| ==> refreshes[i] < cycle
      invariant forall i, j :: 0 <= i < j < |refreshes| ==> refreshes[i] < refreshes[j]
    {
      if BackendCacheDue(mLoop, toggleInterval) {
        refreshes := refreshes + [cycle];
      }
      mLoop := NextLoop(mLoop);
      cycle := cycle + 1;
    }
  }

  lemma {:induction false} ProductAtLeastFactor(t: int, d: int)
    requires t > 0 && d >= 1
    ensures t * d >= t
  {
    if d > 1 {
      ProductAtLeastFactor(t, d - 1);
      assert t * d == t * (d - 1) + t;
    }
  }

  /** A remainder is determined by any quotient-remainder split of the number. */
  lemma {:induction false} RemainderUnique(z: int, t: int, q: int, r: int)
    requires t > 0 && 0 <= r < t && z == t * q + r
    ensures z % t == r
  {
    var q', r' := z / t, z % t;
    assert t * (q' - q) == r - r' by {
      assert t * q' + r' == t * q + r;
      assert t * (q' - q) == t * q' - t * q;
    }
    if q' - q >= 1 {
      ProductAtLeastFactor(t, q' - q);
    } else if q - q' >= 1 {
      ProductAtLeastFactor(t, q - q');
    }
  }

  /** When the interval divides 1000 the wrap is invisible: the cache is
      refreshed on exactly every interval-th cycle. */
  lemma RefreshEveryInterval(k: nat, toggleInterval: int)
    requires toggleInterval > 0 && LOOP_WRAP % toggleInterval == 0
    ensures BackendCacheDue(k % LOOP_WRAP, toggleInterval) <==> k % toggleInterval == 0
  {
    var t := toggleInterval;
    var a, b := k / LOOP_WRAP, k % LOOP_WRAP;
    var c := LOOP_WRAP / t;
    assert LOOP_WRAP == t * c;
    var q, r := b / t, b % t;
    assert k == t * (c * a + q) + r by {
      assert k == LOOP_WRAP * a + b;
      assert LOOP_WRAP * a == t * (c * a) by {
        assert LOOP_WRAP * a == (t * c) * a;
      }
      assert b == t * q + r;
      assert t * (c * a) + t * q == t * (c * a + q);
    }
    RemainderUnique(k, t, c * a + q, r);
  }

  /** The refreshes around a wrap. In one pass of the counter the last refresh
      comes at counter `999 - 999 % t`; the counter values above it never
      refresh, and counter 0 after the wrap always does. The gap between the
      two is `1 + 999 % t` cycles, which equals the interval exactly when the
      interval divides 1000. */
  lemma WrapGap(toggleInterval: int)
    requires toggleInterval > 0
    ensures var last := (LOOP_WRAP - 1) - (LOOP_WRAP - 1) % toggleInterval;
      0 <= last < LOOP_WRAP &&
      BackendCacheDue(last, toggleInterval) &&
      (forall m :: last < m < LOOP_WRAP ==> !BackendCacheDue(m, toggleInterval)) &&
      BackendCacheDue(0, toggleInterval) &&
      LOOP_WRAP - last == 1 + (LOOP_WRAP - 1) % toggleInterval &&
      (LOOP_WRAP - last == toggleInterval <==> LOOP_WRAP % toggleInterval == 0)
  {
    var t := toggleInterval;
    var q, r := (LOOP_WRAP - 1) / t, (LOOP_WRAP - 1) % t;
    var last := (LOOP_WRAP - 1) - r;
    assert last == t * q;
    RemainderUnique(last, t, q, 0);
    forall m | last < m < LOOP_WRAP
      ensures !BackendCacheDue(m, t)
    {
      RemainderUnique(m, t, q, m - last);
    }
    RemainderUnique(0, t, 0, 0);
    if r + 1 == t {
      assert LOOP_WRAP == t * (q + 1);
      RemainderUnique(LOOP_WRAP, t, q + 1, 0);
    } else {
      RemainderUnique(LOOP_WRAP, t, q, r + 1);
    }
  }
}
