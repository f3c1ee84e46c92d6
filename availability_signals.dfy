// The receivers of apps/availability/signals.py: a saved or deleted blocked
// time or availability rule becomes, after the transaction commits, a call to
// `invalidate_availability_cache` for its organizer. The model routes each
// mutation to the invalidation request it produces.

module AvailabilitySignals {
  import opened Domain
  import opened CacheStore

  /** The attributes `_invalidate_cache_for_blocked_time` reads; a missing attribute is `None`. */
  datatype BlockedTime = BlockedTime(organizer: Option<UserId>, startDate: Option<Date>, endDate: Option<Date>)

  /** The attribute `_invalidate_cache_for_availability_rule` reads. */
  datatype AvailabilityRule = AvailabilityRule(organizer: Option<UserId>)

  datatype Record = BlockedTimeRecord(blockedTime: BlockedTime) | RuleRecord(rule: AvailabilityRule)

  /** A `post_save` or `post_delete` signal for one record. */
  datatype Mutation = Saved(record: Record) | Deleted(record: Record)

  /** `_invalidate_cache_for_blocked_time`: the organizer's entries between the blocked time's dates. */
  function BlockedTimeInvalidation(blockedTime: BlockedTime): (r: Option<InvalidationRequest>)
    ensures r.Some? <==> blockedTime.organizer.Some?
    ensures r.Some? ==> r.value.organizer == blockedTime.organizer.value
                        && r.value.dateStart == blockedTime.startDate && r.value.dateEnd == blockedTime.endDate
  {
    match blockedTime.organizer
    case None => None
    case Some(organizer) => Some(InvalidationRequest(organizer, blockedTime.startDate, blockedTime.endDate))
  }

  /** `_invalidate_cache_for_availability_rule`: all the organizer's entries, whatever their date. */
  function RuleInvalidation(rule: AvailabilityRule): (r: Option<InvalidationRequest>)
    ensures r.Some? <==> rule.organizer.Some?
    ensures r.Some? ==> r.value.organizer == rule.organizer.value && r.value.dateStart.None? && r.value.dateEnd.None?
  {
    match rule.organizer
    case None => None
    case Some(organizer) => Some(InvalidationRequest(organizer, None, None))
  }

  function RecordInvalidation(record: Record): Option<InvalidationRequest> {
    match record
    case BlockedTimeRecord(blockedTime) => BlockedTimeInvalidation(blockedTime)
    case RuleRecord(rule) => RuleInvalidation(rule)
  }

  /** The four receivers: save and delete of either model run the same helper. */
  function Route(m: Mutation): Option<InvalidationRequest> {
    match m
    case Saved(record) => RecordInvalidation(record)
    case Deleted(record) => RecordInvalidation(record)
  }

  /** Saving and deleting the same record request the same invalidation. */
  lemma SaveAndDeleteAgree(record: Record)
    ensures Route(Saved(record)) == Route(Deleted(record))
  {
  }

  /** A record without an organizer invalidates nothing: the cache is left as it was. */
  lemma NoOrganizerNoInvalidation(m: Mutation, cache: Cache)
    requires m.record.BlockedTimeRecord? ==> m.record.blockedTime.organizer.None?
    requires m.record.RuleRecord? ==> m.record.rule.organizer.None?
    ensures Route(m) == None
    ensures ApplyInvalidation(cache, Route(m)) == cache
  {
  }

  /**
   * A blocked-time change takes from the cache exactly the organizer's
   * entries dated within its range (a missing date leaves that side open)
   * and serves every other key as before.
   */
  lemma BlockedTimeChangeEffect(m: Mutation, cache: Cache, key: CacheKey, now: Seconds)
    requires m.record.BlockedTimeRecord? && m.record.blockedTime.organizer.Some?
    ensures var bt := m.record.blockedTime;
      var after := ApplyInvalidation(cache, Route(m));
      && (key.organizer == bt.organizer.value
          && (bt.startDate.Some? ==> bt.startDate.value <= key.date)
          && (bt.endDate.Some? ==> key.date <= bt.endDate.value)
          ==> Lookup(after, key, now).None?)
      && (key.organizer != bt.organizer.value
          || (bt.startDate.Some? && key.date < bt.startDate.value)
          || (bt.endDate.Some? && key.date > bt.endDate.value)
          ==> Lookup(after, key, now) == Lookup(cache, key, now))
      && after.Keys == cache.Keys
  {
    var bt := m.record.blockedTime;
    LookupAfterInvalidation(cache, bt.organizer.value, bt.startDate, bt.endDate, key, now);
    InvalidatedSpec(cache, bt.organizer.value, bt.startDate, bt.endDate);
  }

  /** An availability-rule change takes every entry of the organizer from the cache, and only those. */
  lemma RuleChangeEffect(m: Mutation, cache: Cache, key: CacheKey, now: Seconds)
    requires m.record.RuleRecord? && m.record.rule.organizer.Some?
    ensures var after := ApplyInvalidation(cache, Route(m));
      && (key.organizer == m.record.rule.organizer.value ==> Lookup(after, key, now).None?)
      && (key.organizer != m.record.rule.organizer.value ==> Lookup(after, key, now) == Lookup(cache, key, now))
      && after.Keys == cache.Keys
  {
    LookupAfterInvalidation(cache, m.record.rule.organizer.value, None, None, key, now);
    InvalidatedSpec(cache, m.record.rule.organizer.value, None, None);
  }

  /**
   * A blocked time for days 10 to 12: the organizer's entries dated 10, 11 and
   * 12 become dirty and unservable, the entry dated 13 keeps its state.
   */
  lemma BlockedTimeScenario(cache: Cache, organizer: UserId, inside: CacheKey, outside: CacheKey, now: Seconds)
    requires inside in cache && outside in cache
    requires inside.organizer == organizer && 10 <= inside.date <= 12
    requires outside.organizer == organizer && outside.date == 13
    ensures var after := ApplyInvalidation(cache, Route(Saved(BlockedTimeRecord(BlockedTime(Some(organizer), Some(10), Some(12))))));
      && after[inside].isDirty && Lookup(after, inside, now).None?
      && after[outside] == cache[outside]
  {
    InvalidatedSpec(cache, organizer, Some(10), Some(12));
  }
}
