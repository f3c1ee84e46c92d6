// The candidate start times of one working day: from the start of the
// working-hours window, every `interval` minutes, as long as a slot of
// `duration` minutes still ends by the end of the window
// (the loop of `_get_daily_slots`, backend/events/utils.py).

module TimeGrid {
  import opened Domain

  /** The slot interval of an event type: `slot_interval_minutes or 30`. */
  function SlotInterval(et: EventType): (interval: nat)
    ensures interval > 0
    ensures et.slotIntervalMinutes.Some? && et.slotIntervalMinutes.value != 0 ==> interval == et.slotIntervalMinutes.value
    ensures et.slotIntervalMinutes.None? || et.slotIntervalMinutes.value == 0 ==> interval == 30
  {
    match et.slotIntervalMinutes
    case Some(m) => if m != 0 then m else 30
    case None => 30
  }

  /** Candidate starts from `current` on, while `start + duration <= windowEnd`. */
  function Grid(current: Minute, windowEnd: Minute, duration: nat, interval: nat): seq<Minute>
    requires interval > 0
    decreases windowEnd - current + interval
  {
    if current + duration <= windowEnd then
      [current] + Grid(current + interval, windowEnd, duration, interval)
    else
      []
  }

  /**
   * The grid is exactly the arithmetic progression `current + k * interval`
   * of the starts whose slot fits the window: empty iff the first slot does
   * not fit, every member fits, and the next step after the last does not.
   */
  lemma {:induction false} GridShape(current: Minute, windowEnd: Minute, duration: nat, interval: nat)
    requires interval > 0
    ensures var g := Grid(current, windowEnd, duration, interval);
      && (|g| == 0 <==> current + duration > windowEnd)
      && (forall k :: 0 <= k < |g| ==> g[k] == current + k * interval && g[k] + duration <= windowEnd)
      && (|g| > 0 ==> windowEnd < g[|g| - 1] + interval + duration)
    decreases windowEnd - current + interval
  {
    var g := Grid(current, windowEnd, duration, interval);
    if current + duration <= windowEnd {
      var rest := Grid(current + interval, windowEnd, duration, interval);
      GridShape(current + interval, windowEnd, duration, interval);
      assert g == [current] + rest;
      forall k | 0 <= k < |g|
        ensures g[k] == current + k * interval && g[k] + duration <= windowEnd
      {
        if k > 0 {
          assert g[k] == rest[k - 1];
          assert (k - 1) * interval + interval == k * interval;
        }
      }
      if |rest| > 0 {
        assert g[|g| - 1] == rest[|rest| - 1];
      }
    }
  }

  /** Consecutive starts are one interval apart, so the grid is strictly ascending. */
  lemma {:induction false} GridAscending(current: Minute, windowEnd: Minute, duration: nat, interval: nat)
    requires interval > 0
    ensures var g := Grid(current, windowEnd, duration, interval);
      forall j, k :: 0 <= j < k < |g| ==> g[j] < g[k]
    decreases windowEnd - current + interval
  {
    var g := Grid(current, windowEnd, duration, interval);
    if current + duration <= windowEnd {
      var rest := Grid(current + interval, windowEnd, duration, interval);
      GridAscending(current + interval, windowEnd, duration, interval);
      GridShape(current + interval, windowEnd, duration, interval);
      assert g == [current] + rest;
      forall j, k | 0 <= j < k < |g| ensures g[j] < g[k] {
        if j > 0 {
          assert g[j] == rest[j - 1] && g[k] == rest[k - 1];
        } else {
          assert g[k] == rest[k - 1];
          assert rest[k - 1] >= current + interval;
        }
      }
    }
  }

  /** No candidate at all when the slot is longer than the window. */
  lemma GridEmptyWhenTooLong(current: Minute, windowEnd: Minute, duration: nat, interval: nat)
    requires interval > 0
    requires duration > windowEnd - current
    ensures Grid(current, windowEnd, duration, interval) == []
  {
  }

  /** 09:00 to 17:00 with 30-minute slots every 30 minutes: 16 starts, 09:00 to 16:30. */
  lemma NineToFiveGrid(d: Date)
    ensures var g := Grid(DayStart(d) + 9 * 60, DayStart(d) + 17 * 60, 30, 30);
      |g| == 16 && g[0] == DayStart(d) + 540 && g[15] == DayStart(d) + 990
  {
    var g := Grid(DayStart(d) + 9 * 60, DayStart(d) + 17 * 60, 30, 30);
    GridShape(DayStart(d) + 9 * 60, DayStart(d) + 17 * 60, 30, 30);
    assert g[|g| - 1] == DayStart(d) + 540 + (|g| - 1) * 30;
  }
}
