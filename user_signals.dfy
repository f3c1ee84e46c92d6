// `handle_profile_timezone_change` of apps/users/signals.py: whether a saved
// profile invalidates all of its user's cached availability.

module UserSignals {
  import opened Domain
  import opened CacheStore

  const TimezoneField: string := "timezone_name"

  /** `kwargs.get('update_fields')` is truthy: present and non-empty. */
  predicate FieldsGiven(updateFields: Option<set<string>>) {
    updateFields.Some? && updateFields.value != {}
  }

  /**
   * The request the receiver issues for a saved profile of `user` with the
   * new `timezoneName`; `stored` is the row `Profile.objects.get` finds, `None`
   * for `DoesNotExist`.
   */
  function ProfileSaveInvalidation(user: UserId, updateFields: Option<set<string>>, timezoneName: string,
                                   stored: Option<string>): (r: Option<InvalidationRequest>)
    ensures r.Some? ==> r.value == InvalidationRequest(user, None, None)
  {
    if FieldsGiven(updateFields) && TimezoneField in updateFields.value then Some(InvalidationRequest(user, None, None))
    else if !FieldsGiven(updateFields) then
      match stored
      case None => None
      case Some(storedTimezone) => if storedTimezone != timezoneName then Some(InvalidationRequest(user, None, None)) else None
    else None
  }

  /** The receiver invalidates exactly when the timezone is named among the saved fields, or a full save finds a different stored timezone. */
  lemma ProfileSaveInvalidationSpec(user: UserId, updateFields: Option<set<string>>, timezoneName: string,
                                    stored: Option<string>)
    ensures ProfileSaveInvalidation(user, updateFields, timezoneName, stored).Some? <==>
      if updateFields.Some? && |updateFields.value| > 0 then TimezoneField in updateFields.value
      else stored.Some? && stored.value != timezoneName
  {
    if updateFields.Some? && |updateFields.value| > 0 {
      assert FieldsGiven(updateFields);
    } else if updateFields.Some? {
      assert updateFields.value == {};
    }
  }

  /** Saving named fields without the timezone invalidates nothing. */
  lemma OtherFieldsNoInvalidation(user: UserId, fields: set<string>, timezoneName: string, stored: Option<string>)
    requires fields != {} && TimezoneField !in fields
    ensures ProfileSaveInvalidation(user, Some(fields), timezoneName, stored).None?
  {
  }

  /** A full save whose profile row is not found invalidates nothing and raises nothing. */
  lemma MissingProfileNoInvalidation(user: UserId, timezoneName: string)
    ensures ProfileSaveInvalidation(user, None, timezoneName, None).None?
    ensures ProfileSaveInvalidation(user, Some({}), timezoneName, None).None?
  {
  }

  /**
   * On `post_save` the stored row already holds the new timezone, so a full
   * save never invalidates: only a save naming `timezone_name` does.
   */
  lemma FullSaveAfterWriteNeverInvalidates(user: UserId, updateFields: Option<set<string>>, timezoneName: string)
    requires !FieldsGiven(updateFields)
    ensures ProfileSaveInvalidation(user, updateFields, timezoneName, Some(timezoneName)).None?
  {
  }

  /** When it fires, every cached entry of the user becomes unservable and every other user's entry is served as before. */
  lemma ProfileInvalidationEffect(user: UserId, updateFields: Option<set<string>>, timezoneName: string,
                                  stored: Option<string>, cache: Cache, key: CacheKey, now: Seconds)
    requires ProfileSaveInvalidation(user, updateFields, timezoneName, stored).Some?
    ensures var after := ApplyInvalidation(cache, ProfileSaveInvalidation(user, updateFields, timezoneName, stored));
      && (key.organizer == user ==> Lookup(after, key, now).None?)
      && (key.organizer != user ==> Lookup(after, key, now) == Lookup(cache, key, now))
      && after.Keys == cache.Keys
  {
    LookupAfterInvalidation(cache, user, None, None, key, now);
    InvalidatedSpec(cache, user, None, None);
  }
}
