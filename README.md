# Availability engine of the scheduling backend, in Dafny

This project models the availability engine of a Django scheduling backend and
proves properties of the model. The engine lives in `backend/events/utils.py`.
It turns an organizer's working hours and an event type's duration and slot
interval into candidate slots for each bookable date. It drops the candidates
that confirmed bookings block, or that a group event's capacity cannot hold.
For recurring event types it drops the dates that a `cancelled` exception
removes. Results are cached per organizer, event type, start date, timezone and
attendee count. Two signal modules decide when to mark cached entries dirty:

- `apps/availability/signals.py` handles blocked times and availability rules.
- `apps/users/signals.py` handles profile timezone changes.

Modules, one per concern:

- `Domain` (`domain.dfy`) holds the entities as datatypes:
  - bookings and their status;
  - event types, with `can_book_on_date` and `is_group_event` as fields;
  - the organizer's working hours;
  - slots;
  - recurring-event exceptions.

  Times are integer minutes on one wall-clock scale: date `d` starts at minute
  `d * 1440`. The cache clock is integer seconds.
- `TimeGrid` (`time_grid.dfy`) gives the candidate starts of one day.
- `Conflicts` (`conflicts.dfy`) checks one slot (`_is_slot_available`).
- `RecurringExceptions` (`recurring_exceptions.dfy`) is the exception filter.
- `CacheStore` (`cache_store.dfy`) covers the cache table:
  - lookup, upsert and invalidation, as functions on a map;
  - the `Database` class, whose fields are the bookings, exceptions and cache tables the engine reads and writes;
  - `invalidate_availability_cache`, as a method on that class.
- `Availability` (`availability.dfy`) holds the calculator and its callers:
  - `AvailabilityCalculator` is the datatype `Calculator`, since its fields never change.
  - Its loops are methods (`DailySlots`, `CalculateAvailability`, `ApplyRecurringExceptions`).
  - Each method is proved equal to a specification function (`DaySlots`, `RangeSlots`, `ExceptionsApplied`).
  - `get_available_slots` is proved equal to `Respond`, which returns the result and the new cache.
  - Also here: `get_available_time_slots` and the slot check and field updates of `handle_booking_rescheduling`.
- `AvailabilitySignals` (`availability_signals.dfy`) maps each saved or deleted record to its invalidation request.
- `UserSignals` (`user_signals.dfy`) decides whether a profile save invalidates the user's cache.

The model follows the code, including these behaviours:

- The conflict query filters by organizer and status only, not by event type.
- A cache entry is keyed by the start date of the queried range, and one lookup serves the whole range.
- A `rescheduled` exception changes nothing.
- No configuration error is raised for a zero slot interval. The interval falls back to 30.
- The one error path the model covers is `time.replace(hour=...)` raising for a working hour outside 0..23. It is raised at the first bookable date and caught by `get_available_slots`, which returns an error result with no slots. Other error paths are listed under "Left out".

## Model

| member | source | states |
|---|---|---|
| CacheStore.InvalidateAvailabilityCache | backend/events/utils.py:86-102 | the cache becomes `Invalidated` of the old cache; bookings and exceptions are unchanged |
| CacheStore.InvalidatedSpec | backend/events/utils.py:95-102 | invalidation keeps every key, sets `is_dirty` on exactly the organizer's entries within the optional date bounds, and leaves their other fields and all other entries as they were |
| CacheStore.LookupAfterInvalidation | backend/events/utils.py:95-102 | after invalidation a selected key is never served and every other key is served as before |
| CacheStore.InvalidationOnlyRemovesHits | backend/events/utils.py:102 | invalidation never makes an unservable entry servable |
| CacheStore.InvalidationIdempotent | backend/events/utils.py:95-102 | invalidating twice equals invalidating once |
| CacheStore.LookupAfterUpsert | backend/events/utils.py:328-347 | after an upsert, a lookup of that key at a later time returns the stored clean entry while the time is before `now + timeout`, and nothing afterwards |
| CacheStore.PutThenGet | backend/events/utils.py:331-347 | with a positive timeout, a lookup right after the upsert hits with exactly the stored slots |
| CacheStore.UpsertOtherKey | backend/events/utils.py:334-339 | an upsert changes the lookup of no other key |
| CacheStore.Lookup | backend/events/utils.py:192-200 | the exact-key `get` with `is_dirty=False, expires_at__gt=now`; characterised by `LookupAfterUpsert`, `LookupAfterInvalidation` and `CachedAvailabilitySpec` |
| CacheStore.Upsert | backend/events/utils.py:334-347 | `update_or_create` on the key with the new slots, clean and expiring at `now + timeout`; characterised by `LookupAfterUpsert`, `PutThenGet` and `UpsertOtherKey` |
| CacheStore.Invalidated | backend/events/utils.py:95-102 | the organizer and optional date filters with `update(is_dirty=True)`; characterised by `InvalidatedSpec` and `LookupAfterInvalidation` |
| TimeGrid.Grid | backend/events/utils.py:255-267 | the candidate starts of the day loop; characterised by `GridShape` and `GridAscending` |
| TimeGrid.SlotInterval | backend/events/utils.py:245 | the interval is positive: the configured value when it is set and nonzero, else 30 |
| TimeGrid.GridShape | backend/events/utils.py:255-267 | the candidate starts are `start + k * interval`, each slot ends by the window end, the next step after the last does not fit, and there are none iff the first slot does not fit |
| TimeGrid.GridAscending | backend/events/utils.py:255-267 | candidate starts strictly ascend |
| TimeGrid.GridEmptyWhenTooLong | backend/events/utils.py:255 | no candidate when the duration exceeds the window |
| TimeGrid.NineToFiveGrid | backend/events/utils.py:241-267 | 09:00-17:00 with 30-minute slots every 30 minutes gives 16 starts, 09:00 to 16:30 |
| Conflicts.ConflictingBookings | backend/events/utils.py:274-279 | the conflicting bookings are exactly those of the organizer, confirmed, whose interval overlaps the half-open candidate |
| Conflicts.ConflictingMultiplicity | backend/events/utils.py:274-283 | a blocking booking is kept as many times as it occurs, so equal bookings all count in the group sum |
| Conflicts.IsSlotAvailable | backend/events/utils.py:271-286 | the group capacity sum or the no-conflict test; characterised by `IndividualAvailability`, `NoConflictAvailability` and `NewBookingNeverFreesSlot` |
| Conflicts.RescheduledBookingNeverBlocks | backend/events/utils.py:276 | a booking with status `rescheduled`, as rescheduling leaves it, never blocks any slot |
| Conflicts.IndividualAvailability | backend/events/utils.py:285-286 | an individual event's slot is available iff no booking blocks it |
| Conflicts.NoConflictAvailability | backend/events/utils.py:282-286 | with no blocking booking, an individual slot is available, and a group slot is available iff the request fits `max_attendees` |
| Conflicts.TouchingOrUnconfirmedNeverBlocks | backend/events/utils.py:274-279 | bookings that only touch the candidate, are not confirmed or belong to another organizer never block it |
| Conflicts.IrrelevantBookingIgnored | backend/events/utils.py:274-284 | adding a booking that does not block the candidate leaves its availability unchanged |
| Conflicts.NewBookingNeverFreesSlot | backend/events/utils.py:274-286 | adding any booking never makes an unavailable slot available |
| Conflicts.EventTypeOfBookingIgnored | backend/events/utils.py:274-279 | changing a booking's event type does not change availability: only the organizer is compared |
| Conflicts.GroupCapacityScenario | backend/events/utils.py:282-284 | with capacity 5 and three seats booked in the slot, two more fit and three do not |
| RecurringExceptions.WithoutDates | backend/events/utils.py:317-318 | the comprehension dropping the slots of given dates; characterised by `WithoutDatesSpec` and `WithoutDatesCompose` |
| RecurringExceptions.ExceptionsApplied | backend/events/utils.py:302-323 | the exception filter; characterised by `NoRecurrenceIsIdentity`, `ExceptionsAppliedSpec` and `ExceptionsIdempotent` |
| RecurringExceptions.WithoutDatesSpec | backend/events/utils.py:316-318 | dropping dates keeps the order and keeps exactly the slots whose start date is not dropped |
| RecurringExceptions.WithoutDatesCompose | backend/events/utils.py:314-318 | dropping one set of dates and then another is dropping their union |
| RecurringExceptions.NoRecurrenceIsIdentity | backend/events/utils.py:304-305 | the filter is the identity when the recurrence type is `none` |
| RecurringExceptions.ExceptionsAppliedSpec | backend/events/utils.py:302-323 | for a recurring type the output is a subsequence of the input, holding exactly the slots whose date no in-range `cancelled` exception of the event type names |
| RecurringExceptions.ExceptionsIdempotent | backend/events/utils.py:302-323 | applying the filter twice equals applying it once |
| RecurringExceptions.NonCancellingExceptionIgnored | backend/events/utils.py:308-318 | an exception of another event type, outside the range or not `cancelled` changes nothing wherever it appears |
| RecurringExceptions.RescheduledExceptionIgnored | backend/events/utils.py:319-321 | a `rescheduled` exception changes nothing |
| Availability.Calculator.DaySlots | backend/events/utils.py:228-269 | the daily slots; characterised by `DaySlotsSpec` and `DaySlotsOnDate` |
| Availability.Calculator.RangeSlots | backend/events/utils.py:215-226 | the date-range walk; characterised by `RangeSlotsMembership`, `RangeSlotsAscending` and `EmptyRange` |
| Availability.Calculator.Uncached | backend/events/utils.py:146-154 | the computation without the cache, or the hour error; characterised by `UncachedSpec` |
| Availability.Calculator.CachedAvailability | backend/events/utils.py:189-213 | the cached answer; characterised by `CachedAvailabilitySpec` |
| Availability.Calculator.Respond | backend/events/utils.py:116-187 | the result and the new cache of `get_available_slots`; characterised by `RepeatedQueryHitsCache`, `StaleEntryRecomputed`, `CacheOffIgnoresCache` and `RangeCachedUnderStartDate` |
| Availability.Calculator.DailySlots | backend/events/utils.py:228-269 | the loop returns `DaySlots` of the date |
| Availability.Calculator.CalculateAvailability | backend/events/utils.py:215-226 | fails, with the hour error, iff an hour is out of range and some date is bookable; otherwise returns `RangeSlots` of the range |
| Availability.Calculator.ApplyRecurringExceptions | backend/events/utils.py:302-326 | the exception loop returns `ExceptionsApplied` on the exceptions table |
| Availability.Calculator.CacheAvailabilityResult | backend/events/utils.py:328-347 | the cache becomes the old cache with the start date's key upserted under the configured or default timeout |
| Availability.Calculator.GetAvailableSlots | backend/events/utils.py:116-187 | the result and the new cache are `Respond` of the old tables; bookings and exceptions are unchanged |
| Availability.Calculator.DaySlotsSpec | backend/events/utils.py:241-267 | daily slots ascend, lie on the grid inside the working-hours window, have the event type's duration and capacity, are available, and include every available grid start |
| Availability.Calculator.DaySlotsOnDate | backend/events/utils.py:246-247 | with valid hours every slot of a date starts on that date |
| Availability.Calculator.RangeSlotsMembership | backend/events/utils.py:217-226 | the range holds exactly the daily slots of the bookable dates in the inclusive range |
| Availability.Calculator.RangeSlotsAscending | backend/events/utils.py:218-224 | the range result is in chronological order |
| Availability.Calculator.EmptyRange | backend/events/utils.py:220 | no slots when the start date is after the end date |
| Availability.Calculator.UncachedSpec | backend/events/utils.py:146-154 | the uncached computation fails iff an hour is out of range and a date is bookable; otherwise it is ascending and holds exactly the available daily slots of the bookable, uncancelled dates in the range |
| Availability.Calculator.NineToFiveScenario | backend/events/utils.py:241-267 | with no bookings, 09:00-17:00 at 30/30 gives 16 slots, the first 09:00-09:30 and the last 16:30-17:00 |
| Availability.Calculator.OneBookingScenario | backend/events/utils.py:255-286 | one confirmed 10:00-10:30 booking of an individual event removes the 10:00 slot and no other |
| Availability.Calculator.CachedAvailabilitySpec | backend/events/utils.py:189-213 | a cached answer exists iff the exact key holds a clean, unexpired entry; it serves that entry's slots with `total_slots` their count and `cache_hit` set |
| Availability.Calculator.RepeatedQueryHitsCache | backend/events/utils.py:139-174 | with nothing changed, a second identical cached query at the same or a later time, before the written entry expires, hits and returns the same slots and cache |
| Availability.Calculator.StaleEntryRecomputed | backend/events/utils.py:192-200 | a dirty or expired entry is not served; the answer is the fresh computation |
| Availability.Calculator.CacheOffIgnoresCache | backend/events/utils.py:139-172 | with the cache off the table is untouched and the answer does not depend on it |
| Availability.Calculator.RangeCachedUnderStartDate | backend/events/utils.py:192-200 | after a multi-day query, a one-day query for its start date is served the whole range's slots |
| Availability.Calculator.RangeEntrySurvivesLaterInvalidation | backend/events/utils.py:334-339 | invalidating only dates after the start date leaves a range's entry servable |
| Availability.GetAvailableTimeSlots | backend/events/utils.py:352-377 | the call equals `Respond` of a calculator built with the invitee's timezone |
| Availability.OffersStart | backend/events/utils.py:490-502 | the uncached slots of the new start's date contain a slot starting at it; characterised, both ways, by `OfferedStartIsFreeGridSlot` and `FreeGridSlotIsOffered`, and by `OverlapWithOwnIntervalRejected` |
| Availability.MovedBooking | backend/events/utils.py:512-516 | the booking with the new start, end = start + duration, status `rescheduled` and the reschedule time; used by the contract of `HandleBookingRescheduling` |
| Availability.OfferedStartIsFreeGridSlot | backend/events/utils.py:490-502 | an accepted new start is a grid start of a bookable, uncancelled date, inside the window, and free for the booking's attendees |
| Availability.FreeGridSlotIsOffered | backend/events/utils.py:490-502 | a free grid start of a bookable, uncancelled date with valid hours is offered, so the reschedule check accepts it |
| Availability.OverlapWithOwnIntervalRejected | backend/events/utils.py:484-502 | an individual event's confirmed booking cannot move to a start whose slot overlaps its own current interval |
| Availability.HandleBookingRescheduling | backend/events/utils.py:480-517 | succeeds iff it may be rescheduled and the uncached slots of the new date offer the new start; on success only that booking changes (start, end = start + duration, status rescheduled, reschedule time); otherwise nothing changes and the fixed error is returned |
| AvailabilitySignals.BlockedTimeInvalidation | apps/availability/signals.py:36-46 | a request exists iff the blocked time has an organizer, for that organizer between its start and end dates |
| AvailabilitySignals.RuleInvalidation | apps/availability/signals.py:49-56 | a request exists iff the rule has an organizer, for that organizer and no date bound |
| AvailabilitySignals.Route | apps/availability/signals.py:12-33 | the four receivers as one routing function; characterised by `SaveAndDeleteAgree`, `NoOrganizerNoInvalidation`, `BlockedTimeChangeEffect` and `RuleChangeEffect` |
| AvailabilitySignals.SaveAndDeleteAgree | apps/availability/signals.py:12-33 | saving and deleting the same record request the same invalidation |
| AvailabilitySignals.NoOrganizerNoInvalidation | apps/availability/signals.py:36-56 | a record without an organizer requests nothing and leaves the cache as it was |
| AvailabilitySignals.BlockedTimeChangeEffect | apps/availability/signals.py:36-46 | a blocked-time change makes exactly the organizer's entries within its dates unservable (a missing date is open) and keeps every key |
| AvailabilitySignals.RuleChangeEffect | apps/availability/signals.py:49-56 | a rule change makes every entry of the organizer unservable and no other |
| AvailabilitySignals.BlockedTimeScenario | apps/availability/signals.py:12-46 | a blocked time for days 10 to 12 dirties the organizer's entries of those days and leaves day 13's entry unchanged |
| UserSignals.ProfileSaveInvalidation | apps/users/signals.py:9-24 | any request is an unbounded one for the user |
| UserSignals.ProfileSaveInvalidationSpec | apps/users/signals.py:12-22 | it invalidates iff the saved fields are given and name `timezone_name`, or they are not given and the stored timezone differs |
| UserSignals.OtherFieldsNoInvalidation | apps/users/signals.py:12-16 | saving named fields without the timezone invalidates nothing |
| UserSignals.MissingProfileNoInvalidation | apps/users/signals.py:16-24 | a full save whose profile row is missing invalidates nothing |
| UserSignals.FullSaveAfterWriteNeverInvalidates | apps/users/signals.py:16-22 | a full save whose stored row already holds the new timezone invalidates nothing |
| UserSignals.ProfileInvalidationEffect | apps/users/signals.py:12-22 | when it fires, every entry of the user becomes unservable and every other entry is served as before |

## Left out

- Timezone localisation (`pytz`): times are minutes on one wall-clock scale, so daylight-saving gaps and offsets are not modelled. `validate_timezone_for_booking` is not part of this model.
- `_apply_recurring_logic` always returns its input, so the model leaves it out: `Uncached` passes the range slots straight to the exception filter.
- An unknown timezone name or a missing organizer profile: in the source, `pytz.timezone(...)` or `organizer.profile` raises at the first bookable date, and `get_available_slots` returns the error result. The model does not interpret the timezone name and reads the working hours as given, so it returns slots in these cases.
- The `except Exception` branches other than the hour-out-of-range error, and all logging. This includes the invalidation count in the log line, a failing cache write, and a failing exception query.
- `computation_time_ms` and `now` are parameters (`elapsedMs`, `now`). No clock is read. One `now` stands for the separate `timezone.now()` reads of the cache lookup (utils.py:199), `expires_at` (332), `computed_at` (342) and `rescheduled_at` (516).
- Default arguments are passed explicitly: `timezone_name='UTC'` (utils.py:111), `attendee_count=1` and `use_cache=True` (120-121, 357-359).
- `handle_booking_rescheduling`: the audit-log write and the final `booking.save()` are left out. The model updates the booking in the bookings table. `can_be_rescheduled` is a parameter.
- `handle_booking_cancellation`, `create_booking_audit_log`, `get_booking_by_access_token` and the request helpers are ORM or request plumbing, so they are left out.
- `transaction.on_commit` deferral in the availability signals: the model gives the request that runs after commit.
- `apps/users/tasks.py` and `backend/apps/events/tasks.py` hold task queuing and import lines only, with no logic to model.
- Event-type duration is a `nat` and the slot interval an optional `nat`. A negative interval, on which the source's day loop would not end, is outside the model.
- The cache stores the slot values themselves. JSON serialisation is not modelled.
