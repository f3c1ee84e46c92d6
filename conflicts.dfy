// The availability check of one candidate slot (`_is_slot_available`,
// backend/events/utils.py): confirmed bookings of the organizer that overlap
// the half-open candidate interval either add up against the group capacity
// or, for an individual event, forbid the slot outright.

module Conflicts {
  import opened Domain

  /** Half-open overlap: `start_time < end and end_time > start`. */
  predicate Overlaps(b: Booking, start: Minute, end: Minute) {
    b.startTime < end && b.endTime > start
  }

  /** The ORM filter: same organizer, status confirmed, overlapping. The event type is not compared. */
  predicate Blocks(b: Booking, organizer: UserId, start: Minute, end: Minute) {
    b.organizer == organizer && b.status == Confirmed && Overlaps(b, start, end)
  }

  function ConflictingBookings(bookings: seq<Booking>, organizer: UserId, start: Minute, end: Minute): (r: seq<Booking>)
    ensures |r| <= |bookings|
    ensures forall b :: b in r <==> b in bookings && Blocks(b, organizer, start, end)
  {
    if bookings == [] then []
    else
      var rest := ConflictingBookings(bookings[1..], organizer, start, end);
      if Blocks(bookings[0], organizer, start, end) then [bookings[0]] + rest else rest
  }

  /** Each blocking booking is kept as often as it occurs, so equal bookings all count in the group sum. */
  lemma {:induction false} ConflictingMultiplicity(bookings: seq<Booking>, organizer: UserId, start: Minute, end: Minute)
    ensures var r := ConflictingBookings(bookings, organizer, start, end);
      forall b :: multiset(r)[b] == if Blocks(b, organizer, start, end) then multiset(bookings)[b] else 0
  {
    if bookings != [] {
      ConflictingMultiplicity(bookings[1..], organizer, start, end);
      assert bookings == [bookings[0]] + bookings[1..];
      assert multiset(bookings) == multiset{bookings[0]} + multiset(bookings[1..]);
    }
  }

  function TotalAttendees(bookings: seq<Booking>): nat {
    if bookings == [] then 0 else bookings[0].attendeeCount + TotalAttendees(bookings[1..])
  }

  predicate IsSlotAvailable(et: EventType, organizer: UserId, bookings: seq<Booking>,
                            start: Minute, end: Minute, attendeeCount: int)
  {
    var conflicting := ConflictingBookings(bookings, organizer, start, end);
    if et.groupEvent then TotalAttendees(conflicting) + attendeeCount <= et.maxAttendees
    else |conflicting| == 0
  }

  /** An individual event is available iff no booking blocks the interval. */
  lemma IndividualAvailability(et: EventType, organizer: UserId, bookings: seq<Booking>,
                               start: Minute, end: Minute, attendeeCount: int)
    requires !et.groupEvent
    ensures IsSlotAvailable(et, organizer, bookings, start, end, attendeeCount)
        <==> forall b :: b in bookings ==> !Blocks(b, organizer, start, end)
  {
    var c := ConflictingBookings(bookings, organizer, start, end);
    if |c| > 0 {
      assert c[0] in c;
    }
  }

  /** With no blocking booking, an individual slot is free and a group slot is free iff the request fits the capacity. */
  lemma NoConflictAvailability(et: EventType, organizer: UserId, bookings: seq<Booking>,
                               start: Minute, end: Minute, attendeeCount: int)
    requires forall b :: b in bookings ==> !Blocks(b, organizer, start, end)
    ensures IsSlotAvailable(et, organizer, bookings, start, end, attendeeCount)
        <==> (et.groupEvent ==> attendeeCount <= et.maxAttendees)
  {
    IndividualAvailability(et.(groupEvent := false), organizer, bookings, start, end, attendeeCount);
  }

  /** Bookings that touch the candidate only at an end point, or are not confirmed, never block it. */
  lemma TouchingOrUnconfirmedNeverBlocks(b: Booking, organizer: UserId, start: Minute, end: Minute)
    requires b.endTime <= start || b.startTime >= end || b.status != Confirmed || b.organizer != organizer
    ensures !Blocks(b, organizer, start, end)
  {
  }

  lemma {:induction false} ConflictingAppend(bookings: seq<Booking>, b: Booking, organizer: UserId, start: Minute, end: Minute)
    ensures ConflictingBookings(bookings + [b], organizer, start, end)
         == ConflictingBookings(bookings, organizer, start, end)
            + (if Blocks(b, organizer, start, end) then [b] else [])
  {
    if bookings == [] {
      assert bookings + [b] == [b];
      assert ([b])[1..] == [];
    } else {
      assert (bookings + [b])[0] == bookings[0];
      assert (bookings + [b])[1..] == bookings[1..] + [b];
      ConflictingAppend(bookings[1..], b, organizer, start, end);
    }
  }

  lemma {:induction false} TotalAttendeesAppend(bookings: seq<Booking>, extra: seq<Booking>)
    ensures TotalAttendees(bookings + extra) == TotalAttendees(bookings) + TotalAttendees(extra)
  {
    if bookings == [] {
      assert bookings + extra == extra;
    } else {
      assert (bookings + extra)[0] == bookings[0];
      assert (bookings + extra)[1..] == bookings[1..] + extra;
      TotalAttendeesAppend(bookings[1..], extra);
    }
  }

  /** Recording a booking that does not block the candidate leaves its availability as it was. */
  lemma IrrelevantBookingIgnored(et: EventType, organizer: UserId, bookings: seq<Booking>, b: Booking,
                                 start: Minute, end: Minute, attendeeCount: int)
    requires !Blocks(b, organizer, start, end)
    ensures IsSlotAvailable(et, organizer, bookings + [b], start, end, attendeeCount)
        == IsSlotAvailable(et, organizer, bookings, start, end, attendeeCount)
  {
    ConflictingAppend(bookings, b, organizer, start, end);
    assert ConflictingBookings(bookings, organizer, start, end) + [] == ConflictingBookings(bookings, organizer, start, end);
  }

  /** Recording another booking never makes an unavailable slot available. */
  lemma NewBookingNeverFreesSlot(et: EventType, organizer: UserId, bookings: seq<Booking>, b: Booking,
                                 start: Minute, end: Minute, attendeeCount: int)
    ensures IsSlotAvailable(et, organizer, bookings + [b], start, end, attendeeCount)
        ==> IsSlotAvailable(et, organizer, bookings, start, end, attendeeCount)
  {
    var c := ConflictingBookings(bookings, organizer, start, end);
    var extra := if Blocks(b, organizer, start, end) then [b] else [];
    ConflictingAppend(bookings, b, organizer, start, end);
    TotalAttendeesAppend(c, extra);
  }

  /** The check ignores which event type a booking belongs to: only the organizer matters. */
  lemma {:induction false} EventTypeOfBookingIgnored(et: EventType, organizer: UserId, bookings: seq<Booking>,
                                                    i: nat, other: EventTypeId,
                                                    start: Minute, end: Minute, attendeeCount: int)
    requires i < |bookings|
    ensures IsSlotAvailable(et, organizer, bookings[i := bookings[i].(eventTypeId := other)], start, end, attendeeCount)
        == IsSlotAvailable(et, organizer, bookings, start, end, attendeeCount)
  {
    ConflictingIgnoresEventType(bookings, i, other, organizer, start, end);
  }

  lemma {:induction false} ConflictingIgnoresEventType(bookings: seq<Booking>, i: nat, other: EventTypeId,
                                                      organizer: UserId, start: Minute, end: Minute)
    requires i < |bookings|
    ensures var changed := bookings[i := bookings[i].(eventTypeId := other)];
      |ConflictingBookings(changed, organizer, start, end)| == |ConflictingBookings(bookings, organizer, start, end)|
      && TotalAttendees(ConflictingBookings(changed, organizer, start, end))
         == TotalAttendees(ConflictingBookings(bookings, organizer, start, end))
  {
    var changed := bookings[i := bookings[i].(eventTypeId := other)];
    if i > 0 {
      assert changed[1..] == bookings[1..][i - 1 := bookings[i].(eventTypeId := other)];
      ConflictingIgnoresEventType(bookings[1..], i - 1, other, organizer, start, end);
    } else {
      assert changed[1..] == bookings[1..];
    }
  }

  /** A booking moved by rescheduling has status `rescheduled`, so it never blocks any slot again. */
  lemma RescheduledBookingNeverBlocks(b: Booking, organizer: UserId, start: Minute, end: Minute)
    requires b.status == Rescheduled
    ensures !Blocks(b, organizer, start, end)
  {
  }

  /** A group of five with three seats booked at 14:00-14:30 still takes two more, not three. */
  lemma GroupCapacityScenario(et: EventType, d: Date, b: Booking)
    requires et.groupEvent && et.maxAttendees == 5
    requires b.organizer == et.organizer && b.status == Confirmed && b.attendeeCount == 3
    requires b.startTime == DayStart(d) + 14 * 60 && b.endTime == DayStart(d) + 14 * 60 + 30
    ensures IsSlotAvailable(et, et.organizer, [b], b.startTime, b.endTime, 2)
    ensures !IsSlotAvailable(et, et.organizer, [b], b.startTime, b.endTime, 3)
  {
    assert ConflictingBookings([b], et.organizer, b.startTime, b.endTime) == [b];
  }
}
