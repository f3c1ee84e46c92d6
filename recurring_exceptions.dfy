// Recurring-event exceptions applied to computed slots
// (`_apply_recurring_exceptions`, backend/events/utils.py): a `cancelled`
// exception of the event type dated inside the queried range removes every
// slot starting on that date; a `rescheduled` exception changes nothing; an
// event type without recurrence is left alone.

module RecurringExceptions {
  import opened Domain

  /** The query `event_type=..., exception_date__gte=start, exception_date__lte=end`, then `exception_type == 'cancelled'`. */
  predicate CancelsDate(e: RecurringEventException, eventTypeId: EventTypeId, startDate: Date, endDate: Date) {
    e.eventTypeId == eventTypeId && startDate <= e.exceptionDate <= endDate
    && e.exceptionType == CancelledOccurrence
  }

  function CancelledDates(exceptions: seq<RecurringEventException>, eventTypeId: EventTypeId,
                          startDate: Date, endDate: Date): set<Date>
  {
    set e | e in exceptions && CancelsDate(e, eventTypeId, startDate, endDate) :: e.exceptionDate
  }

  /** The slots, in order, whose start date is not one of `dates`. */
  function WithoutDates(slots: seq<Slot>, dates: set<Date>): seq<Slot> {
    if slots == [] then []
    else
      var rest := WithoutDates(slots[1..], dates);
      if DateOf(slots[0].startTime) in dates then rest else [slots[0]] + rest
  }

  function ExceptionsApplied(et: EventType, exceptions: seq<RecurringEventException>, slots: seq<Slot>,
                             startDate: Date, endDate: Date): seq<Slot>
  {
    if et.recurrenceType == "none" then slots
    else WithoutDates(slots, CancelledDates(exceptions, et.id, startDate, endDate))
  }

  /** `a` is `b` with some elements left out, the rest kept in order. */
  predicate IsSubsequence(a: seq<Slot>, b: seq<Slot>)
    decreases |b|
  {
    if b == [] then a == []
    else (a != [] && a[0] == b[0] && IsSubsequence(a[1..], b[1..])) || IsSubsequence(a, b[1..])
  }

  /** Exactly the slots not on a removed date survive, and they keep their order. */
  lemma {:induction false} WithoutDatesSpec(slots: seq<Slot>, dates: set<Date>)
    ensures var r := WithoutDates(slots, dates);
      && IsSubsequence(r, slots)
      && (forall s :: s in r <==> s in slots && DateOf(s.startTime) !in dates)
  {
    if slots != [] {
      var rest := WithoutDates(slots[1..], dates);
      WithoutDatesSpec(slots[1..], dates);
      assert slots == [slots[0]] + slots[1..];
      if DateOf(slots[0].startTime) !in dates {
        assert ([slots[0]] + rest)[1..] == rest;
      }
    }
  }

  /** Removing no date changes nothing. */
  lemma {:induction false} WithoutNoDates(slots: seq<Slot>)
    ensures WithoutDates(slots, {}) == slots
  {
    if slots != [] {
      WithoutNoDates(slots[1..]);
      assert slots == [slots[0]] + slots[1..];
    }
  }

  /** Removing one set of dates and then another is removing both at once. */
  lemma {:induction false} WithoutDatesCompose(slots: seq<Slot>, first: set<Date>, second: set<Date>)
    ensures WithoutDates(WithoutDates(slots, first), second) == WithoutDates(slots, first + second)
  {
    if slots != [] {
      WithoutDatesCompose(slots[1..], first, second);
      var rest := WithoutDates(slots[1..], first);
      if DateOf(slots[0].startTime) !in first {
        assert ([slots[0]] + rest)[0] == slots[0];
        assert ([slots[0]] + rest)[1..] == rest;
      }
    }
  }

  /** The filter is the identity for an event type without recurrence. */
  lemma NoRecurrenceIsIdentity(et: EventType, exceptions: seq<RecurringEventException>, slots: seq<Slot>,
                               startDate: Date, endDate: Date)
    requires et.recurrenceType == "none"
    ensures ExceptionsApplied(et, exceptions, slots, startDate, endDate) == slots
  {
  }

  /**
   * For a recurring event type the output keeps the input's order and holds
   * exactly the slots whose start date is not cancelled by an in-range
   * exception of that event type.
   */
  lemma ExceptionsAppliedSpec(et: EventType, exceptions: seq<RecurringEventException>, slots: seq<Slot>,
                              startDate: Date, endDate: Date)
    requires et.recurrenceType != "none"
    ensures var r := ExceptionsApplied(et, exceptions, slots, startDate, endDate);
      && IsSubsequence(r, slots)
      && forall s :: s in r <==>
           (s in slots && !(exists e :: e in exceptions && CancelsDate(e, et.id, startDate, endDate)
                                         && e.exceptionDate == DateOf(s.startTime)))
  {
    var dates := CancelledDates(exceptions, et.id, startDate, endDate);
    WithoutDatesSpec(slots, dates);
  }

  /** Applying the filter twice is applying it once. */
  lemma ExceptionsIdempotent(et: EventType, exceptions: seq<RecurringEventException>, slots: seq<Slot>,
                             startDate: Date, endDate: Date)
    ensures var once := ExceptionsApplied(et, exceptions, slots, startDate, endDate);
      ExceptionsApplied(et, exceptions, once, startDate, endDate) == once
  {
    var dates := CancelledDates(exceptions, et.id, startDate, endDate);
    WithoutDatesCompose(slots, dates, dates);
    assert dates + dates == dates;
  }

  /**
   * An exception that cancels nothing in range (a `rescheduled` one, one of
   * another event type, one dated outside the range) may be added anywhere
   * without changing the result.
   */
  lemma NonCancellingExceptionIgnored(et: EventType, before: seq<RecurringEventException>,
                                      e: RecurringEventException, after: seq<RecurringEventException>,
                                      slots: seq<Slot>, startDate: Date, endDate: Date)
    requires !CancelsDate(e, et.id, startDate, endDate)
    ensures ExceptionsApplied(et, before + [e] + after, slots, startDate, endDate)
         == ExceptionsApplied(et, before + after, slots, startDate, endDate)
  {
    var withE := CancelledDates(before + [e] + after, et.id, startDate, endDate);
    var withoutE := CancelledDates(before + after, et.id, startDate, endDate);
    forall x ensures x in withE <==> x in withoutE {
      if x in withE {
        var w :| w in before + [e] + after && CancelsDate(w, et.id, startDate, endDate) && w.exceptionDate == x;
        assert w in before + after;
      }
      if x in withoutE {
        var w :| w in before + after && CancelsDate(w, et.id, startDate, endDate) && w.exceptionDate == x;
        assert w in before + [e] + after;
      }
    }
    assert withE == withoutE;
  }

  lemma RescheduledExceptionIgnored(et: EventType, before: seq<RecurringEventException>,
                                    e: RecurringEventException, after: seq<RecurringEventException>,
                                    slots: seq<Slot>, startDate: Date, endDate: Date)
    requires e.exceptionType == RescheduledOccurrence
    ensures ExceptionsApplied(et, before + [e] + after, slots, startDate, endDate)
         == ExceptionsApplied(et, before + after, slots, startDate, endDate)
  {
    NonCancellingExceptionIgnored(et, before, e, after, slots, startDate, endDate);
  }

  lemma CancelledDatesStep(exceptions: seq<RecurringEventException>, i: nat, eventTypeId: EventTypeId,
                           startDate: Date, endDate: Date)
    requires i < |exceptions|
    ensures CancelledDates(exceptions[..i + 1], eventTypeId, startDate, endDate)
         == CancelledDates(exceptions[..i], eventTypeId, startDate, endDate)
            + (if CancelsDate(exceptions[i], eventTypeId, startDate, endDate) then {exceptions[i].exceptionDate} else {})
  {
    assert exceptions[..i + 1] == exceptions[..i] + [exceptions[i]];
  }
}
