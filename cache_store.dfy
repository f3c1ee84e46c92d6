// The availability cache table (`EventTypeAvailabilityCache`) and the
// operations backend/events/utils.py performs on it: the lookup of a usable
// entry, the upsert after a computation, and the invalidation that marks
// entries dirty without deleting them. The tables the engine reads and
// writes are the fields of `Database`.

module CacheStore {
  import opened Domain

  datatype CacheKey = CacheKey(
    organizer: UserId,
    eventTypeId: EventTypeId,
    date: Date,
    timezoneName: string,
    attendeeCount: int)

  datatype CacheEntry = CacheEntry(
    availableSlots: seq<Slot>,
    computedAt: Seconds,
    expiresAt: Seconds,
    isDirty: bool,
    computationTimeMs: int)

  type Cache = map<CacheKey, CacheEntry>

  /** `getattr(settings, 'AVAILABILITY_CACHE_TIMEOUT', 3600)`, in seconds. */
  const DefaultCacheTimeout: int := 3600

  function CacheTimeout(setting: Option<int>): int {
    setting.GetOr(DefaultCacheTimeout)
  }

  /** An entry may be served: `is_dirty=False, expires_at__gt=now`. */
  predicate Usable(e: CacheEntry, now: Seconds) {
    !e.isDirty && e.expiresAt > now
  }

  /** The ORM `get` on the exact key plus the usability filter; `None` for `DoesNotExist`. */
  function Lookup(cache: Cache, key: CacheKey, now: Seconds): Option<CacheEntry> {
    if key in cache && Usable(cache[key], now) then Some(cache[key]) else None
  }

  /** `update_or_create` with the new slots, clean, fresh until `now + timeout`. */
  function Upsert(cache: Cache, key: CacheKey, slots: seq<Slot>, now: Seconds, timeout: int, computationTimeMs: int): Cache {
    cache[key := CacheEntry(slots, now, now + timeout, false, computationTimeMs)]
  }

  /** Which entries `invalidate_availability_cache(organizer, date_start, date_end)` selects. */
  predicate Selected(key: CacheKey, organizer: UserId, dateStart: Option<Date>, dateEnd: Option<Date>) {
    key.organizer == organizer
    && (dateStart.Some? ==> key.date >= dateStart.value)
    && (dateEnd.Some? ==> key.date <= dateEnd.value)
  }

  /** The bulk `update(is_dirty=True)` on the selected entries. */
  function Invalidated(cache: Cache, organizer: UserId, dateStart: Option<Date>, dateEnd: Option<Date>): Cache {
    map k | k in cache :: if Selected(k, organizer, dateStart, dateEnd) then cache[k].(isDirty := true) else cache[k]
  }

  /** A request to call `invalidate_availability_cache`. */
  datatype InvalidationRequest = InvalidationRequest(organizer: UserId, dateStart: Option<Date>, dateEnd: Option<Date>)

  function ApplyInvalidation(cache: Cache, request: Option<InvalidationRequest>): Cache {
    match request
    case None => cache
    case Some(r) => Invalidated(cache, r.organizer, r.dateStart, r.dateEnd)
  }

  /** After a put, a get of the same key returns the stored slots until the timeout elapses. */
  lemma LookupAfterUpsert(cache: Cache, key: CacheKey, slots: seq<Slot>, now: Seconds, timeout: int,
                          computationTimeMs: int, later: Seconds)
    ensures Lookup(Upsert(cache, key, slots, now, timeout, computationTimeMs), key, later)
         == if later < now + timeout then Some(CacheEntry(slots, now, now + timeout, false, computationTimeMs)) else None
  {
  }

  /** With a positive timeout, a get right after the put hits with exactly the stored slots. */
  lemma PutThenGet(cache: Cache, key: CacheKey, slots: seq<Slot>, now: Seconds, timeout: int, computationTimeMs: int)
    requires timeout > 0
    ensures var hit := Lookup(Upsert(cache, key, slots, now, timeout, computationTimeMs), key, now);
      hit.Some? && hit.value.availableSlots == slots && !hit.value.isDirty
  {
  }

  /** A put touches only its own key. */
  lemma UpsertOtherKey(cache: Cache, key: CacheKey, other: CacheKey, slots: seq<Slot>, now: Seconds,
                       timeout: int, computationTimeMs: int, later: Seconds)
    requires other != key
    ensures Lookup(Upsert(cache, key, slots, now, timeout, computationTimeMs), other, later) == Lookup(cache, other, later)
  {
  }

  /**
   * Invalidation keeps every key, marks exactly the selected entries dirty
   * without touching their other fields, and leaves every other entry as it was.
   */
  lemma InvalidatedSpec(cache: Cache, organizer: UserId, dateStart: Option<Date>, dateEnd: Option<Date>)
    ensures var c := Invalidated(cache, organizer, dateStart, dateEnd);
      && c.Keys == cache.Keys
      && (forall k :: k in c && Selected(k, organizer, dateStart, dateEnd) ==>
            c[k].isDirty && c[k] == cache[k].(isDirty := true))
      && (forall k :: k in c && !Selected(k, organizer, dateStart, dateEnd) ==> c[k] == cache[k])
  {
  }

  /** After invalidation no selected key can be served, and every other key is served as before. */
  lemma LookupAfterInvalidation(cache: Cache, organizer: UserId, dateStart: Option<Date>, dateEnd: Option<Date>,
                                key: CacheKey, now: Seconds)
    ensures Selected(key, organizer, dateStart, dateEnd) ==> Lookup(Invalidated(cache, organizer, dateStart, dateEnd), key, now) == None
    ensures !Selected(key, organizer, dateStart, dateEnd) ==>
      Lookup(Invalidated(cache, organizer, dateStart, dateEnd), key, now) == Lookup(cache, key, now)
  {
  }

  /** Invalidation never makes an entry servable that was not: it can only take hits away. */
  lemma InvalidationOnlyRemovesHits(cache: Cache, organizer: UserId, dateStart: Option<Date>, dateEnd: Option<Date>,
                                    key: CacheKey, now: Seconds)
    ensures Lookup(Invalidated(cache, organizer, dateStart, dateEnd), key, now).Some? ==> Lookup(cache, key, now).Some?
  {
  }

  /** Invalidating twice is invalidating once. */
  lemma InvalidationIdempotent(cache: Cache, organizer: UserId, dateStart: Option<Date>, dateEnd: Option<Date>)
    ensures var once := Invalidated(cache, organizer, dateStart, dateEnd);
      Invalidated(once, organizer, dateStart, dateEnd) == once
  {
    var once := Invalidated(cache, organizer, dateStart, dateEnd);
    var twice := Invalidated(once, organizer, dateStart, dateEnd);
    assert twice.Keys == once.Keys;
    forall k | k in once ensures twice[k] == once[k] {
    }
  }

  /** The tables: bookings, recurring-event exceptions and the availability cache. */
  class Database {
    var bookings: seq<Booking>
    var exceptions: seq<RecurringEventException>
    var cache: Cache

    constructor (bookings: seq<Booking>, exceptions: seq<RecurringEventException>)
      ensures this.bookings == bookings && this.exceptions == exceptions && cache == map[]
    {
      this.bookings := bookings;
      this.exceptions := exceptions;
      cache := map[];
    }
  }

  /** `invalidate_availability_cache`: marks the organizer's entries in the optional date range dirty. */
  method InvalidateAvailabilityCache(db: Database, organizer: UserId, dateStart: Option<Date>, dateEnd: Option<Date>)
    modifies db
    ensures db.cache == Invalidated(old(db.cache), organizer, dateStart, dateEnd)
    ensures db.bookings == old(db.bookings) && db.exceptions == old(db.exceptions)
  {
    db.cache := Invalidated(db.cache, organizer, dateStart, dateEnd);
  }
}
