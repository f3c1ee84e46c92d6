// The availability calculator of backend/events/utils.py: daily slot
// generation, the walk over a date range, the recurring-exception pass, the
// cache-first orchestration of `get_available_slots`, the public entry point
// `get_available_time_slots` and the slot check and field updates of
// `handle_booking_rescheduling`.

module Availability {
  import opened Domain
  import opened TimeGrid
  import opened Conflicts
  import opened RecurringExceptions
  import opened CacheStore

  /** The dictionary `get_available_slots` returns. */
  datatype AvailabilityResult = AvailabilityResult(
    slots: seq<Slot>,
    totalSlots: nat,
    cacheHit: bool,
    computationTimeMs: int,
    cacheUsed: bool,
    cachedAt: Option<Seconds>,
    error: Option<string>)

  const DefaultHoursStart: int := 9
  const DefaultHoursEnd: int := 17

  /** What `time.replace(hour=h)` raises for an hour outside 0..23. */
  const HourOutOfRange: string := "hour must be in 0..23"

  const CannotRescheduleError: string := "Booking cannot be rescheduled at this time"
  const SlotTakenError: string := "The requested time slot is not available"

  predicate StartsAscending(slots: seq<Slot>) {
    forall i, j :: 0 <= i < j < |slots| ==> slots[i].startTime < slots[j].startTime
  }

  lemma AscendingConcat(a: seq<Slot>, b: seq<Slot>)
    requires StartsAscending(a) && StartsAscending(b)
    requires forall x, y :: x in a && y in b ==> x.startTime < y.startTime
    ensures StartsAscending(a + b)
  {
    var c := a + b;
    forall i, j | 0 <= i < j < |c| ensures c[i].startTime < c[j].startTime {
      if i < |a| && j >= |a| {
        assert c[i] == a[i] && c[j] == b[j - |a|];
      } else if i < |a| {
        assert c[i] == a[i] && c[j] == a[j];
      } else {
        assert c[i] == b[i - |a|] && c[j] == b[j - |a|];
      }
    }
  }

  lemma {:induction false} SubsequenceElements(a: seq<Slot>, b: seq<Slot>)
    requires IsSubsequence(a, b)
    ensures forall x :: x in a ==> x in b
    decreases |b|
  {
    if b != [] {
      if a != [] && a[0] == b[0] && IsSubsequence(a[1..], b[1..]) {
        SubsequenceElements(a[1..], b[1..]);
        assert a == [a[0]] + a[1..];
      } else {
        SubsequenceElements(a, b[1..]);
      }
    }
  }

  lemma {:induction false} SubsequenceAscending(a: seq<Slot>, b: seq<Slot>)
    requires IsSubsequence(a, b) && StartsAscending(b)
    ensures StartsAscending(a)
    decreases |b|
  {
    if b != [] {
      assert StartsAscending(b[1..]) by {
        forall i, j | 0 <= i < j < |b[1..]| ensures b[1..][i].startTime < b[1..][j].startTime {
          assert b[1..][i] == b[i + 1] && b[1..][j] == b[j + 1];
        }
      }
      if a != [] && a[0] == b[0] && IsSubsequence(a[1..], b[1..]) {
        SubsequenceAscending(a[1..], b[1..]);
        SubsequenceElements(a[1..], b[1..]);
        forall i, j | 0 <= i < j < |a| ensures a[i].startTime < a[j].startTime {
          assert a[j] == a[1..][j - 1];
          assert a[j] in b[1..];
          var k :| 0 <= k < |b[1..]| && b[1..][k] == a[j];
          assert b[k + 1] == a[j];
          if i > 0 {
            assert a[i] == a[1..][i - 1];
          }
        }
      } else {
        SubsequenceAscending(a, b[1..]);
      }
    }
  }

  /** An `AvailabilityCalculator(organizer, event_type, timezone_name)`; it holds no mutable state. */
  datatype Calculator = Calculator(organizer: Organizer, eventType: EventType, timezoneName: string) {

    function HoursStart(): int {
      organizer.reasonableHoursStart.GetOr(DefaultHoursStart)
    }

    function HoursEnd(): int {
      organizer.reasonableHoursEnd.GetOr(DefaultHoursEnd)
    }

    /** Both hours are accepted by `time.replace(hour=...)`. */
    predicate HoursValid() {
      0 <= HoursStart() <= 23 && 0 <= HoursEnd() <= 23
    }

    function WindowStart(d: Date): Minute {
      DayStart(d) + HoursStart() * 60
    }

    function WindowEnd(d: Date): Minute {
      DayStart(d) + HoursEnd() * 60
    }

    function Candidates(d: Date): seq<Minute> {
      Grid(WindowStart(d), WindowEnd(d), eventType.duration, SlotInterval(eventType))
    }

    function SlotAt(start: Minute): Slot {
      Slot(start, start + eventType.duration, eventType.duration, eventType.maxAttendees)
    }

    predicate Available(bookings: seq<Booking>, start: Minute, attendeeCount: int) {
      IsSlotAvailable(eventType, organizer.id, bookings, start, start + eventType.duration, attendeeCount)
    }

    /** The available candidates among `starts`, as slots, in order. */
    function SlotsFor(bookings: seq<Booking>, starts: seq<Minute>, attendeeCount: int): seq<Slot> {
      if starts == [] then []
      else
        var rest := SlotsFor(bookings, starts[1..], attendeeCount);
        if Available(bookings, starts[0], attendeeCount) then [SlotAt(starts[0])] + rest else rest
    }

    /** The slots `_get_daily_slots` returns for date `d`. */
    function DaySlots(bookings: seq<Booking>, d: Date, attendeeCount: int): seq<Slot> {
      SlotsFor(bookings, Candidates(d), attendeeCount)
    }

    /** The slots `_calculate_availability` collects from `d` to `endDate`. */
    function RangeSlots(bookings: seq<Booking>, d: Date, endDate: Date, attendeeCount: int): seq<Slot>
      decreases endDate - d + 1
    {
      if d <= endDate then
        (if eventType.canBookOnDate(d) then DaySlots(bookings, d, attendeeCount) else [])
        + RangeSlots(bookings, d + 1, endDate, attendeeCount)
      else []
    }

    /** `_calculate_availability` raises: an hour is out of range and some date is bookable. */
    predicate RaisesOnRange(startDate: Date, endDate: Date) {
      !HoursValid() && exists x :: startDate <= x <= endDate && eventType.canBookOnDate(x)
    }

    /** The computation without the cache: range walk, then the exception pass, or the raised error. */
    function Uncached(bookings: seq<Booking>, exceptions: seq<RecurringEventException>,
                      startDate: Date, endDate: Date, attendeeCount: int): Result<seq<Slot>, string>
    {
      if RaisesOnRange(startDate, endDate) then Failure(HourOutOfRange)
      else Success(ExceptionsApplied(eventType, exceptions, RangeSlots(bookings, startDate, endDate, attendeeCount),
                                     startDate, endDate))
    }

    /** The cache key: the start date only, even for a longer range. */
    function KeyFor(startDate: Date, attendeeCount: int): CacheKey {
      CacheKey(organizer.id, eventType.id, startDate, timezoneName, attendeeCount)
    }

    /** `_get_cached_availability`. */
    function CachedAvailability(cache: Cache, startDate: Date, attendeeCount: int, now: Seconds): Option<AvailabilityResult> {
      match Lookup(cache, KeyFor(startDate, attendeeCount), now)
      case None => None
      case Some(e) => Some(AvailabilityResult(e.availableSlots, |e.availableSlots|, true, e.computationTimeMs,
                                              true, Some(e.computedAt), None))
    }

    /** What `get_available_slots` returns and what the cache table holds afterwards. */
    function Respond(bookings: seq<Booking>, exceptions: seq<RecurringEventException>, cache: Cache,
                     startDate: Date, endDate: Date, attendeeCount: int, useCache: bool,
                     now: Seconds, elapsedMs: int, timeout: int): (AvailabilityResult, Cache)
    {
      var cached := CachedAvailability(cache, startDate, attendeeCount, now);
      if useCache && cached.Some? then (cached.value, cache)
      else
        match Uncached(bookings, exceptions, startDate, endDate, attendeeCount)
        case Failure(message) =>
          (AvailabilityResult([], 0, false, elapsedMs, useCache, None, Some(message)), cache)
        case Success(slots) =>
          (AvailabilityResult(slots, |slots|, false, elapsedMs, useCache, None, None),
           if useCache then Upsert(cache, KeyFor(startDate, attendeeCount), slots, now, timeout, elapsedMs) else cache)
    }

    // ---------------------------------------------------------------- methods

    /** `_get_daily_slots`: steps through the working-hours window, keeping the available candidates. */
    method DailySlots(db: Database, d: Date, attendeeCount: int) returns (slots: seq<Slot>)
      requires HoursValid()
      ensures slots == DaySlots(db.bookings, d, attendeeCount)
    {
      var interval := SlotInterval(eventType);
      var currentTime := WindowStart(d);
      var endTime := WindowEnd(d);
      slots := [];
      while currentTime + eventType.duration <= endTime
        invariant slots + SlotsFor(db.bookings, Grid(currentTime, endTime, eventType.duration, interval), attendeeCount)
               == DaySlots(db.bookings, d, attendeeCount)
        decreases endTime - currentTime + interval
      {
        var slotEndTime := currentTime + eventType.duration;
        ghost var rest := Grid(currentTime + interval, endTime, eventType.duration, interval);
        assert Grid(currentTime, endTime, eventType.duration, interval) == [currentTime] + rest;
        if IsSlotAvailable(eventType, organizer.id, db.bookings, currentTime, slotEndTime, attendeeCount) {
          slots := slots + [Slot(currentTime, slotEndTime, eventType.duration, eventType.maxAttendees)];
        }
        currentTime := currentTime + interval;
      }
    }

    /** `_calculate_availability`: every date from start to end inclusive, in order, bookable dates only. */
    method CalculateAvailability(db: Database, startDate: Date, endDate: Date, attendeeCount: int)
      returns (r: Result<seq<Slot>, string>)
      ensures r.Failure? <==> RaisesOnRange(startDate, endDate)
      ensures r.Failure? ==> r.error == HourOutOfRange
      ensures r.Success? ==> r.value == RangeSlots(db.bookings, startDate, endDate, attendeeCount)
    {
      var slots := [];
      var currentDate := startDate;
      while currentDate <= endDate
        invariant startDate <= currentDate
        invariant startDate <= endDate + 1 ==> currentDate <= endDate + 1
        invariant slots + RangeSlots(db.bookings, currentDate, endDate, attendeeCount)
               == RangeSlots(db.bookings, startDate, endDate, attendeeCount)
        invariant HoursValid() || forall x :: startDate <= x < currentDate ==> !eventType.canBookOnDate(x)
        decreases endDate - currentDate + 1
      {
        if eventType.canBookOnDate(currentDate) {
          if !HoursValid() {
            return Failure(HourOutOfRange);
          }
          var dailySlots := DailySlots(db, currentDate, attendeeCount);
          slots := slots + dailySlots;
        }
        currentDate := currentDate + 1;
      }
      return Success(slots);
    }

    /** `_apply_recurring_exceptions`: each in-range `cancelled` exception of the event type drops its date's slots. */
    method ApplyRecurringExceptions(db: Database, slots: seq<Slot>, startDate: Date, endDate: Date)
      returns (r: seq<Slot>)
      ensures r == ExceptionsApplied(eventType, db.exceptions, slots, startDate, endDate)
    {
      if eventType.recurrenceType == "none" {
        return slots;
      }
      r := slots;
      var i := 0;
      assert CancelledDates(db.exceptions[..0], eventType.id, startDate, endDate) == {};
      WithoutNoDates(slots);
      while i < |db.exceptions|
        invariant 0 <= i <= |db.exceptions|
        invariant r == WithoutDates(slots, CancelledDates(db.exceptions[..i], eventType.id, startDate, endDate))
      {
        var exception := db.exceptions[i];
        ghost var before := CancelledDates(db.exceptions[..i], eventType.id, startDate, endDate);
        CancelledDatesStep(db.exceptions, i, eventType.id, startDate, endDate);
        if exception.eventTypeId == eventType.id && startDate <= exception.exceptionDate <= endDate
           && exception.exceptionType == CancelledOccurrence
        {
          WithoutDatesCompose(slots, before, {exception.exceptionDate});
          r := WithoutDates(r, {exception.exceptionDate});
        } else {
          assert CancelledDates(db.exceptions[..i + 1], eventType.id, startDate, endDate) == before;
        }
        i := i + 1;
      }
      assert db.exceptions[..i] == db.exceptions;
    }

    /** `_cache_availability_result`: upsert of the start date's entry. */
    method CacheAvailabilityResult(db: Database, startDate: Date, attendeeCount: int, slots: seq<Slot>,
                                   now: Seconds, computationTimeMs: int, timeoutSetting: Option<int>)
      modifies db
      ensures db.cache == Upsert(old(db.cache), KeyFor(startDate, attendeeCount), slots, now,
                                 CacheTimeout(timeoutSetting), computationTimeMs)
      ensures db.bookings == old(db.bookings) && db.exceptions == old(db.exceptions)
    {
      var cacheTimeout := CacheTimeout(timeoutSetting);
      db.cache := Upsert(db.cache, KeyFor(startDate, attendeeCount), slots, now, cacheTimeout, computationTimeMs);
    }

    /** `get_available_slots`: the cache first, else compute, filter and (with the cache on) write back. */
    method GetAvailableSlots(db: Database, startDate: Date, endDate: Date, attendeeCount: int, useCache: bool,
                             now: Seconds, elapsedMs: int, timeoutSetting: Option<int>)
      returns (result: AvailabilityResult)
      modifies db
      ensures db.bookings == old(db.bookings) && db.exceptions == old(db.exceptions)
      ensures (result, db.cache) == Respond(old(db.bookings), old(db.exceptions), old(db.cache), startDate, endDate,
                                            attendeeCount, useCache, now, elapsedMs, CacheTimeout(timeoutSetting))
    {
      if useCache {
        var cachedResult := CachedAvailability(db.cache, startDate, attendeeCount, now);
        if cachedResult.Some? {
          return cachedResult.value;
        }
      }
      var computed := CalculateAvailability(db, startDate, endDate, attendeeCount);
      if computed.Failure? {
        return AvailabilityResult([], 0, false, elapsedMs, useCache, None, Some(computed.error));
      }
      var slots := ApplyRecurringExceptions(db, computed.value, startDate, endDate);
      result := AvailabilityResult(slots, |slots|, false, elapsedMs, useCache, None, None);
      if useCache {
        CacheAvailabilityResult(db, startDate, attendeeCount, slots, now, elapsedMs, timeoutSetting);
      }
    }

    // ----------------------------------------------------------------- lemmas

    lemma {:induction false} SlotsForSpec(bookings: seq<Booking>, starts: seq<Minute>, attendeeCount: int)
      ensures var r := SlotsFor(bookings, starts, attendeeCount);
        && (forall s :: s in r ==> s.startTime in starts && s == SlotAt(s.startTime)
                                   && Available(bookings, s.startTime, attendeeCount))
        && (forall t :: t in starts && Available(bookings, t, attendeeCount) ==> SlotAt(t) in r)
    {
      if starts != [] {
        SlotsForSpec(bookings, starts[1..], attendeeCount);
        assert starts == [starts[0]] + starts[1..];
      }
    }

    lemma {:induction false} SlotsForAscending(bookings: seq<Booking>, starts: seq<Minute>, attendeeCount: int)
      requires forall i, j :: 0 <= i < j < |starts| ==> starts[i] < starts[j]
      ensures StartsAscending(SlotsFor(bookings, starts, attendeeCount))
    {
      if starts != [] {
        var rest := SlotsFor(bookings, starts[1..], attendeeCount);
        SlotsForAscending(bookings, starts[1..], attendeeCount);
        SlotsForSpec(bookings, starts[1..], attendeeCount);
        if Available(bookings, starts[0], attendeeCount) {
          forall y | y in rest ensures SlotAt(starts[0]).startTime < y.startTime {
            var k :| 0 <= k < |starts[1..]| && starts[1..][k] == y.startTime;
            assert starts[k + 1] == y.startTime;
          }
          AscendingConcat([SlotAt(starts[0])], rest);
        }
      }
    }

    lemma {:induction false} SlotsForAllAvailable(bookings: seq<Booking>, starts: seq<Minute>, attendeeCount: int)
      requires forall t :: t in starts ==> Available(bookings, t, attendeeCount)
      ensures var r := SlotsFor(bookings, starts, attendeeCount);
        |r| == |starts| && forall k :: 0 <= k < |r| ==> r[k] == SlotAt(starts[k])
    {
      if starts != [] {
        assert starts[0] in starts;
        forall t | t in starts[1..] ensures Available(bookings, t, attendeeCount) {
          assert t in starts;
        }
        SlotsForAllAvailable(bookings, starts[1..], attendeeCount);
        var rest := SlotsFor(bookings, starts[1..], attendeeCount);
        assert SlotsFor(bookings, starts, attendeeCount) == [SlotAt(starts[0])] + rest;
      }
    }

    /**
     * The daily slots: ascending starts, each on the grid of the working-hours
     * window, of the event type's duration and capacity, available, and every
     * available grid start present.
     */
    lemma DaySlotsSpec(bookings: seq<Booking>, d: Date, attendeeCount: int)
      ensures var r := DaySlots(bookings, d, attendeeCount);
        && StartsAscending(r)
        && (forall s :: s in r ==>
              && s.startTime in Candidates(d)
              && s.endTime == s.startTime + eventType.duration
              && s.durationMinutes == eventType.duration
              && s.availableSpots == eventType.maxAttendees
              && WindowStart(d) <= s.startTime && s.endTime <= WindowEnd(d)
              && IsSlotAvailable(eventType, organizer.id, bookings, s.startTime, s.endTime, attendeeCount))
        && (forall t :: t in Candidates(d) && Available(bookings, t, attendeeCount) ==> SlotAt(t) in r)
    {
      var g := Candidates(d);
      GridShape(WindowStart(d), WindowEnd(d), eventType.duration, SlotInterval(eventType));
      GridAscending(WindowStart(d), WindowEnd(d), eventType.duration, SlotInterval(eventType));
      SlotsForSpec(bookings, g, attendeeCount);
      SlotsForAscending(bookings, g, attendeeCount);
      var r := DaySlots(bookings, d, attendeeCount);
      forall s | s in r ensures WindowStart(d) <= s.startTime && s.endTime <= WindowEnd(d) {
        var k :| 0 <= k < |g| && g[k] == s.startTime;
        assert k * SlotInterval(eventType) >= 0;
      }
    }

    /** With valid hours every slot of date `d` starts on `d`. */
    lemma DaySlotsOnDate(bookings: seq<Booking>, d: Date, attendeeCount: int)
      requires HoursValid()
      ensures forall s :: s in DaySlots(bookings, d, attendeeCount) ==>
        DayStart(d) <= s.startTime < DayStart(d) + MinutesPerDay && DateOf(s.startTime) == d
    {
      DaySlotsSpec(bookings, d, attendeeCount);
      forall s | s in DaySlots(bookings, d, attendeeCount)
        ensures DayStart(d) <= s.startTime < DayStart(d) + MinutesPerDay && DateOf(s.startTime) == d
      {
        DateOfWithinDay(d, s.startTime);
      }
    }

    /** The range result holds exactly the daily slots of the bookable dates in the range. */
    lemma {:induction false} RangeSlotsMembership(bookings: seq<Booking>, d: Date, endDate: Date, attendeeCount: int)
      requires HoursValid()
      ensures forall s :: s in RangeSlots(bookings, d, endDate, attendeeCount) <==>
        (d <= DateOf(s.startTime) <= endDate && eventType.canBookOnDate(DateOf(s.startTime))
         && s in DaySlots(bookings, DateOf(s.startTime), attendeeCount))
      decreases endDate - d + 1
    {
      if d <= endDate {
        RangeSlotsMembership(bookings, d + 1, endDate, attendeeCount);
        DaySlotsOnDate(bookings, d, attendeeCount);
      }
    }

    /** With valid hours the range result is in chronological order. */
    lemma {:induction false} RangeSlotsAscending(bookings: seq<Booking>, d: Date, endDate: Date, attendeeCount: int)
      requires HoursValid()
      ensures StartsAscending(RangeSlots(bookings, d, endDate, attendeeCount))
      decreases endDate - d + 1
    {
      if d <= endDate {
        var today := if eventType.canBookOnDate(d) then DaySlots(bookings, d, attendeeCount) else [];
        var later := RangeSlots(bookings, d + 1, endDate, attendeeCount);
        RangeSlotsAscending(bookings, d + 1, endDate, attendeeCount);
        RangeSlotsMembership(bookings, d + 1, endDate, attendeeCount);
        DaySlotsSpec(bookings, d, attendeeCount);
        DaySlotsOnDate(bookings, d, attendeeCount);
        forall x, y | x in today && y in later ensures x.startTime < y.startTime {
          DaySlotsOnDate(bookings, DateOf(y.startTime), attendeeCount);
        }
        AscendingConcat(today, later);
      }
    }

    lemma {:induction false} RangeSlotsNoBookableDate(bookings: seq<Booking>, d: Date, endDate: Date, attendeeCount: int)
      requires forall x :: d <= x <= endDate ==> !eventType.canBookOnDate(x)
      ensures RangeSlots(bookings, d, endDate, attendeeCount) == []
      decreases endDate - d + 1
    {
      if d <= endDate {
        RangeSlotsNoBookableDate(bookings, d + 1, endDate, attendeeCount);
      }
    }

    /** An empty range yields no slots. */
    lemma EmptyRange(bookings: seq<Booking>, startDate: Date, endDate: Date, attendeeCount: int)
      requires startDate > endDate
      ensures RangeSlots(bookings, startDate, endDate, attendeeCount) == []
    {
    }

    /**
     * The whole uncached computation: an error exactly when an hour is out of
     * range and a date is bookable; otherwise slots in chronological order,
     * holding exactly the available daily slots of the bookable dates in the
     * range that no in-range `cancelled` exception removes.
     */
    lemma UncachedSpec(bookings: seq<Booking>, exceptions: seq<RecurringEventException>,
                       startDate: Date, endDate: Date, attendeeCount: int)
      ensures var r := Uncached(bookings, exceptions, startDate, endDate, attendeeCount);
        && (r.Failure? <==> !HoursValid() && exists x :: startDate <= x <= endDate && eventType.canBookOnDate(x))
        && (r.Success? ==> StartsAscending(r.value))
        && (r.Success? ==> forall s :: s in r.value <==>
              (startDate <= DateOf(s.startTime) <= endDate
               && eventType.canBookOnDate(DateOf(s.startTime))
               && (eventType.recurrenceType != "none" ==>
                     DateOf(s.startTime) !in CancelledDates(exceptions, eventType.id, startDate, endDate))
               && s in DaySlots(bookings, DateOf(s.startTime), attendeeCount)))
    {
      var range := RangeSlots(bookings, startDate, endDate, attendeeCount);
      var dates := CancelledDates(exceptions, eventType.id, startDate, endDate);
      if !RaisesOnRange(startDate, endDate) {
        if HoursValid() {
          RangeSlotsMembership(bookings, startDate, endDate, attendeeCount);
          RangeSlotsAscending(bookings, startDate, endDate, attendeeCount);
        } else {
          RangeSlotsNoBookableDate(bookings, startDate, endDate, attendeeCount);
        }
        if eventType.recurrenceType != "none" {
          WithoutDatesSpec(range, dates);
          SubsequenceAscending(WithoutDates(range, dates), range);
        }
      }
    }

    /** 09:00-17:00, 30-minute slots every 30 minutes, no bookings: 16 slots from 09:00 to 16:30. */
    lemma NineToFiveScenario(d: Date, attendeeCount: int)
      requires organizer.reasonableHoursStart.GetOr(9) == 9 && organizer.reasonableHoursEnd.GetOr(17) == 17
      requires eventType.duration == 30 && SlotInterval(eventType) == 30
      requires eventType.groupEvent ==> attendeeCount <= eventType.maxAttendees
      ensures var r := DaySlots([], d, attendeeCount);
        && |r| == 16
        && r[0] == Slot(DayStart(d) + 540, DayStart(d) + 570, 30, eventType.maxAttendees)
        && r[15] == Slot(DayStart(d) + 990, DayStart(d) + 1020, 30, eventType.maxAttendees)
    {
      NineToFiveGrid(d);
      forall t | t in Candidates(d) ensures Available([], t, attendeeCount) {
        NoConflictAvailability(eventType, organizer.id, [], t, t + 30, attendeeCount);
      }
      SlotsForAllAvailable([], Candidates(d), attendeeCount);
    }

    /** An individual event with one confirmed booking 10:00-10:30: the 10:00 slot is gone, every other start remains. */
    lemma OneBookingScenario(d: Date, b: Booking, attendeeCount: int)
      requires organizer.reasonableHoursStart.GetOr(9) == 9 && organizer.reasonableHoursEnd.GetOr(17) == 17
      requires eventType.duration == 30 && SlotInterval(eventType) == 30 && !eventType.groupEvent
      requires b.organizer == organizer.id && b.status == Confirmed
      requires b.startTime == DayStart(d) + 600 && b.endTime == DayStart(d) + 630
      ensures var r := DaySlots([b], d, attendeeCount);
        && SlotAt(DayStart(d) + 600) !in r
        && forall t :: t in Candidates(d) && t != DayStart(d) + 600 ==> SlotAt(t) in r
    {
      var g := Candidates(d);
      GridShape(WindowStart(d), WindowEnd(d), 30, 30);
      DaySlotsSpec([b], d, attendeeCount);
      IndividualAvailability(eventType, organizer.id, [b], DayStart(d) + 600, DayStart(d) + 630, attendeeCount);
      forall t | t in g && t != DayStart(d) + 600 ensures Available([b], t, attendeeCount) {
        var k :| 0 <= k < |g| && g[k] == t;
        assert t == DayStart(d) + 540 + k * 30;
        IndividualAvailability(eventType, organizer.id, [b], t, t + 30, attendeeCount);
      }
    }

    /** `_get_cached_availability` hits iff the exact key holds a clean, unexpired entry, and then serves it whole. */
    lemma CachedAvailabilitySpec(cache: Cache, startDate: Date, attendeeCount: int, now: Seconds)
      ensures var key := CacheKey(organizer.id, eventType.id, startDate, timezoneName, attendeeCount);
        var r := CachedAvailability(cache, startDate, attendeeCount, now);
        && (r.Some? <==> key in cache && !cache[key].isDirty && cache[key].expiresAt > now)
        && (r.Some? ==> r.value.slots == cache[key].availableSlots && r.value.totalSlots == |r.value.slots|
                        && r.value.cacheHit && r.value.error.None?)
    {
    }

    /** A second identical query with the cache on, with nothing changed in between, hits and serves the same slots. */
    lemma RepeatedQueryHitsCache(bookings: seq<Booking>, exceptions: seq<RecurringEventException>, cache: Cache,
                                 startDate: Date, endDate: Date, attendeeCount: int,
                                 now: Seconds, later: Seconds, elapsedMs: int, laterElapsedMs: int, timeout: int)
      requires now <= later
      ensures var first := Respond(bookings, exceptions, cache, startDate, endDate, attendeeCount, true, now, elapsedMs, timeout);
        var second := Respond(bookings, exceptions, first.1, startDate, endDate, attendeeCount, true, later, laterElapsedMs, timeout);
        var key := KeyFor(startDate, attendeeCount);
        first.0.error.None? && key in first.1 && later < first.1[key].expiresAt ==>
          && second.0.cacheHit
          && second.0.slots == first.0.slots
          && second.0.totalSlots == first.0.totalSlots
          && second.1 == first.1
    {
    }

    /** A dirty or expired entry is not served: the query recomputes. */
    lemma StaleEntryRecomputed(bookings: seq<Booking>, exceptions: seq<RecurringEventException>, cache: Cache,
                               startDate: Date, endDate: Date, attendeeCount: int,
                               now: Seconds, elapsedMs: int, timeout: int)
      requires KeyFor(startDate, attendeeCount) in cache
      requires cache[KeyFor(startDate, attendeeCount)].isDirty || cache[KeyFor(startDate, attendeeCount)].expiresAt <= now
      ensures var r := Respond(bookings, exceptions, cache, startDate, endDate, attendeeCount, true, now, elapsedMs, timeout);
        && !r.0.cacheHit
        && (r.0.error.None? ==> Uncached(bookings, exceptions, startDate, endDate, attendeeCount) == Success(r.0.slots))
    {
    }

    /** With the cache off the table is untouched and the answer does not depend on it. */
    lemma CacheOffIgnoresCache(bookings: seq<Booking>, exceptions: seq<RecurringEventException>, cache: Cache, other: Cache,
                               startDate: Date, endDate: Date, attendeeCount: int,
                               now: Seconds, elapsedMs: int, timeout: int)
      ensures var r := Respond(bookings, exceptions, cache, startDate, endDate, attendeeCount, false, now, elapsedMs, timeout);
        && r.1 == cache
        && r.0 == Respond(bookings, exceptions, other, startDate, endDate, attendeeCount, false, now, elapsedMs, timeout).0
        && !r.0.cacheHit
    {
    }

    /**
     * The cache key holds the start date only: after a multi-day query, a
     * one-day query for the start date is served the whole range's slots.
     */
    lemma RangeCachedUnderStartDate(bookings: seq<Booking>, exceptions: seq<RecurringEventException>, cache: Cache,
                                    startDate: Date, endDate: Date, attendeeCount: int,
                                    now: Seconds, elapsedMs: int, laterElapsedMs: int, timeout: int)
      requires timeout > 0
      requires !RaisesOnRange(startDate, endDate)
      requires CachedAvailability(cache, startDate, attendeeCount, now).None?
      ensures var first := Respond(bookings, exceptions, cache, startDate, endDate, attendeeCount, true, now, elapsedMs, timeout);
        var oneDay := Respond(bookings, exceptions, first.1, startDate, startDate, attendeeCount, true, now, laterElapsedMs, timeout);
        oneDay.0.cacheHit && oneDay.0.slots == first.0.slots
    {
    }

    /**
     * Consequence of the start-date key: invalidating only the dates after the
     * start date leaves the range's entry servable, slots of those dates included.
     */
    lemma RangeEntrySurvivesLaterInvalidation(cache: Cache, startDate: Date, attendeeCount: int, now: Seconds,
                                              dateStart: Date, dateEnd: Option<Date>)
      requires dateStart > startDate
      ensures var after := Invalidated(cache, organizer.id, Some(dateStart), dateEnd);
        CachedAvailability(after, startDate, attendeeCount, now) == CachedAvailability(cache, startDate, attendeeCount, now)
    {
      LookupAfterInvalidation(cache, organizer.id, Some(dateStart), dateEnd, KeyFor(startDate, attendeeCount), now);
    }
  }

  /** `get_available_time_slots`: a calculator for the invitee's timezone, then `get_available_slots`. */
  method GetAvailableTimeSlots(db: Database, organizer: Organizer, eventType: EventType,
                               startDate: Date, endDate: Date, inviteeTimezone: string, attendeeCount: int,
                               useCache: bool, now: Seconds, elapsedMs: int, timeoutSetting: Option<int>)
    returns (result: AvailabilityResult)
    modifies db
    ensures db.bookings == old(db.bookings) && db.exceptions == old(db.exceptions)
    ensures (result, db.cache) == Calculator(organizer, eventType, inviteeTimezone).Respond(
      old(db.bookings), old(db.exceptions), old(db.cache), startDate, endDate, attendeeCount, useCache,
      now, elapsedMs, CacheTimeout(timeoutSetting))
  {
    var calculator := Calculator(organizer, eventType, inviteeTimezone);
    result := calculator.GetAvailableSlots(db, startDate, endDate, attendeeCount, useCache, now, elapsedMs, timeoutSetting);
  }

  /** The uncached slots of the new start's date offer a slot starting exactly at `newStart`. */
  predicate OffersStart(calculator: Calculator, bookings: seq<Booking>, exceptions: seq<RecurringEventException>,
                        newStart: Minute, attendeeCount: int)
  {
    var r := calculator.Uncached(bookings, exceptions, DateOf(newStart), DateOf(newStart), attendeeCount);
    r.Success? && exists s :: s in r.value && s.startTime == newStart
  }

  /** The booking after a successful reschedule. */
  function MovedBooking(b: Booking, newStart: Minute, duration: nat, now: Seconds): Booking {
    b.(startTime := newStart, endTime := newStart + duration, status := Rescheduled, rescheduledAt := Some(now))
  }

  /**
   * An accepted new start is a grid start of a bookable, uncancelled date,
   * in the working-hours window, and free for the booking's attendees.
   */
  lemma OfferedStartIsFreeGridSlot(calculator: Calculator, bookings: seq<Booking>,
                                   exceptions: seq<RecurringEventException>, newStart: Minute, attendeeCount: int)
    requires OffersStart(calculator, bookings, exceptions, newStart, attendeeCount)
    ensures var d := DateOf(newStart);
      && calculator.HoursValid()
      && calculator.eventType.canBookOnDate(d)
      && newStart in calculator.Candidates(d)
      && calculator.WindowStart(d) <= newStart
      && newStart + calculator.eventType.duration <= calculator.WindowEnd(d)
      && calculator.Available(bookings, newStart, attendeeCount)
      && (calculator.eventType.recurrenceType != "none" ==> d !in CancelledDates(exceptions, calculator.eventType.id, d, d))
  {
    var d := DateOf(newStart);
    var r := calculator.Uncached(bookings, exceptions, d, d, attendeeCount);
    var s :| s in r.value && s.startTime == newStart;
    calculator.UncachedSpec(bookings, exceptions, d, d, attendeeCount);
    if !calculator.HoursValid() {
      calculator.RangeSlotsNoBookableDate(bookings, d, d, attendeeCount);
      assert false;
    }
    calculator.DaySlotsSpec(bookings, d, attendeeCount);
    calculator.SlotsForSpec(bookings, calculator.Candidates(d), attendeeCount);
  }

  /** Conversely, a free grid start of a bookable, uncancelled date with valid hours is offered. */
  lemma FreeGridSlotIsOffered(calculator: Calculator, bookings: seq<Booking>,
                              exceptions: seq<RecurringEventException>, newStart: Minute, attendeeCount: int)
    requires calculator.HoursValid()
    requires calculator.eventType.canBookOnDate(DateOf(newStart))
    requires newStart in calculator.Candidates(DateOf(newStart))
    requires calculator.Available(bookings, newStart, attendeeCount)
    requires calculator.eventType.recurrenceType != "none" ==>
      DateOf(newStart) !in CancelledDates(exceptions, calculator.eventType.id, DateOf(newStart), DateOf(newStart))
    ensures OffersStart(calculator, bookings, exceptions, newStart, attendeeCount)
  {
    var d := DateOf(newStart);
    calculator.DaySlotsSpec(bookings, d, attendeeCount);
    calculator.UncachedSpec(bookings, exceptions, d, d, attendeeCount);
    assert calculator.SlotAt(newStart) in calculator.DaySlots(bookings, d, attendeeCount);
  }

  /**
   * A confirmed booking of an individual event blocks every new start whose
   * slot overlaps its current interval, since the check does not exclude the
   * booking being moved.
   */
  lemma OverlapWithOwnIntervalRejected(calculator: Calculator, bookings: seq<Booking>,
                                       exceptions: seq<RecurringEventException>, index: nat, newStart: Minute)
    requires index < |bookings| && !calculator.eventType.groupEvent
    requires bookings[index].status == Confirmed && bookings[index].organizer == calculator.organizer.id
    requires Overlaps(bookings[index], newStart, newStart + calculator.eventType.duration)
    ensures !OffersStart(calculator, bookings, exceptions, newStart, bookings[index].attendeeCount)
  {
    var attendees := bookings[index].attendeeCount;
    assert bookings[index] in bookings;
    IndividualAvailability(calculator.eventType, calculator.organizer.id, bookings, newStart,
                           newStart + calculator.eventType.duration, attendees);
    assert !calculator.Available(bookings, newStart, attendees);
    if OffersStart(calculator, bookings, exceptions, newStart, attendees) {
      OfferedStartIsFreeGridSlot(calculator, bookings, exceptions, newStart, attendees);
      assert false;
    }
  }

  /**
   * `handle_booking_rescheduling` without the audit log: refuses when the
   * booking cannot be rescheduled or the new start is not an uncached slot of
   * its date; otherwise moves the booking and marks it rescheduled.
   */
  method HandleBookingRescheduling(db: Database, index: nat, organizer: Organizer, eventType: EventType,
                                   newStart: Minute, canBeRescheduled: bool, now: Seconds, elapsedMs: int)
    returns (success: bool, errors: seq<string>)
    requires index < |db.bookings|
    requires organizer.id == db.bookings[index].organizer && eventType.id == db.bookings[index].eventTypeId
    modifies db
    ensures db.cache == old(db.cache) && db.exceptions == old(db.exceptions)
    ensures success <==> (canBeRescheduled
      && OffersStart(Calculator(organizer, eventType, old(db.bookings)[index].inviteeTimezone),
                     old(db.bookings), old(db.exceptions), newStart, old(db.bookings)[index].attendeeCount))
    ensures success ==> (errors == [] &&
      db.bookings == old(db.bookings)[index := MovedBooking(old(db.bookings)[index], newStart, eventType.duration, now)])
    ensures !success ==> db.bookings == old(db.bookings)
    ensures !canBeRescheduled ==> errors == [CannotRescheduleError]
    ensures canBeRescheduled && !success ==> errors == [SlotTakenError]
  {
    if !canBeRescheduled {
      return false, [CannotRescheduleError];
    }
    var booking := db.bookings[index];
    var calculator := Calculator(organizer, eventType, booking.inviteeTimezone);
    var newDate := DateOf(newStart);
    ghost var bookings, exceptions := db.bookings, db.exceptions;
    var availability := calculator.GetAvailableSlots(db, newDate, newDate, booking.attendeeCount, false, now, elapsedMs, None);

    var slotAvailable := false;
    var i := 0;
    while i < |availability.slots|
      invariant 0 <= i <= |availability.slots|
      invariant slotAvailable <==> exists k :: 0 <= k < i && availability.slots[k].startTime == newStart
    {
      if availability.slots[i].startTime == newStart {
        slotAvailable := true;
      }
      i := i + 1;
    }
    assert slotAvailable <==> exists s :: s in availability.slots && s.startTime == newStart;
    assert slotAvailable <==> OffersStart(calculator, bookings, exceptions, newStart, booking.attendeeCount);

    if !slotAvailable {
      return false, [SlotTakenError];
    }
    var newEndTime := newStart + eventType.duration;
    db.bookings := db.bookings[index := booking.(startTime := newStart, endTime := newEndTime,
                                                 status := Rescheduled, rescheduledAt := Some(now))];
    return true, [];
  }
}
