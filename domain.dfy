// Entities of the availability engine: bookings, event types, organizers,
// recurring-event exceptions and the slots the engine computes.

module Domain {

  datatype Option<+T> = None | Some(value: T) {
    function GetOr(default: T): T {
      match this
      case Some(v) => v
      case None => default
    }
  }

  datatype Result<+R, +E> = Success(value: R) | Failure(error: E)

  type UserId = int
  type EventTypeId = int

  /** A calendar date, counted in days. */
  type Date = int

  /** An instant, in minutes on the calendar's wall clock: day `d` starts at `DayStart(d)`. */
  type Minute = int

  /** The clock the cache is stamped with, in seconds. */
  type Seconds = int

  const MinutesPerDay: int := 1440

  function DayStart(d: Date): Minute {
    d * MinutesPerDay
  }

  /** The date an instant falls on (`datetime.date()`). */
  function DateOf(t: Minute): Date {
    t / MinutesPerDay
  }

  lemma DateOfWithinDay(d: Date, t: Minute)
    requires DayStart(d) <= t < DayStart(d) + MinutesPerDay
    ensures DateOf(t) == d
  {
  }

  datatype BookingStatus = Tentative | Confirmed | Cancelled | Rescheduled | Completed

  datatype Booking = Booking(
    organizer: UserId,
    eventTypeId: EventTypeId,
    startTime: Minute,
    endTime: Minute,
    status: BookingStatus,
    attendeeCount: nat,
    inviteeTimezone: string,
    rescheduledAt: Option<Seconds>)

  /**
   * An event type. `groupEvent` is the answer of `is_group_event()` and
   * `canBookOnDate` that of `can_book_on_date(date)`; neither body is part of
   * this model, so both are given with the event type.
   */
  datatype EventType = EventType(
    id: EventTypeId,
    organizer: UserId,
    duration: nat,
    slotIntervalMinutes: Option<nat>,
    maxAttendees: int,
    groupEvent: bool,
    recurrenceType: string,
    canBookOnDate: Date -> bool)

  /** The organizer with the working-hours attributes of its profile (absent when the profile lacks them). */
  datatype Organizer = Organizer(
    id: UserId,
    reasonableHoursStart: Option<int>,
    reasonableHoursEnd: Option<int>)

  datatype Slot = Slot(
    startTime: Minute,
    endTime: Minute,
    durationMinutes: nat,
    availableSpots: int)

  datatype ExceptionType = CancelledOccurrence | RescheduledOccurrence

  datatype RecurringEventException = RecurringEventException(
    eventTypeId: EventTypeId,
    exceptionDate: Date,
    exceptionType: ExceptionType,
    newStartTime: Option<Minute>)
}
