/**
 The browser's key-value store as the app uses it, and the weekly-reset
 policy applied to it when the app starts.
 */
module PlanStore {
  import opened Wrappers
  import opened WeekKey

  /** `localStorage`: string keys to string values. */
  type Store = map<string, string>

  /** Entry holding the week key of the week the stored plan belongs to. */
  const WeekKeyEntry: string := "weekKey"
  /** Entry holding the service key the user typed; it survives week changes. */
  const ApiKeyEntry: string := "apiKey"
  /** Entry holding the serialized plan. */
  const PlanEntry: string := "studyPlan"

  /** `localStorage.getItem(key)`, with `null` for a missing entry. */
  function GetItem(s: Store, key: string): (r: Option<string>)
    ensures r.Some? <==> key in s
    ensures r.Some? ==> r.value == s[key]
  {
    if key in s then Some(s[key]) else None
  }

  /** `localStorage.setItem(key, value)`: that entry takes the value, no other entry changes. */
  function SetItem(s: Store, key: string, value: string): (r: Store)
    ensures GetItem(r, key) == Some(value)
    ensures forall k :: k != key ==> GetItem(r, k) == GetItem(s, k)
  {
    s[key := value]
  }

  /** `localStorage.removeItem(key)`: that entry is gone, no other entry changes. */
  function RemoveItem(s: Store, key: string): (r: Store)
    ensures GetItem(r, key) == None
    ensures forall k :: k != key ==> GetItem(r, k) == GetItem(s, k)
  {
    s - {key}
  }

  /**
   `savedWeek !== currentWeek`: the stored week key is missing or differs
   from `week`, the key of the week holding today.
   */
  predicate WeekChanged(s: Store, week: string)
    ensures WeekChanged(s, week) <==> WeekKeyEntry !in s || s[WeekKeyEntry] != week
  {
    GetItem(s, WeekKeyEntry) != Some(week)
  }

  /**
   The store after the startup check with `week` the current week key: on a
   week change the week key is rewritten and the stored plan erased;
   otherwise nothing is touched.
   */
  function WeeklyReset(s: Store, week: string): (r: Store)
    ensures GetItem(r, WeekKeyEntry) == Some(week)
    ensures WeekChanged(s, week) ==> GetItem(r, PlanEntry) == None
    ensures !WeekChanged(s, week) ==> r == s
    ensures forall k :: k != WeekKeyEntry && k != PlanEntry ==> GetItem(r, k) == GetItem(s, k)
  {
    if WeekChanged(s, week) then
      RemoveItem(SetItem(s, WeekKeyEntry, week), PlanEntry)
    else
      s
  }

  /** The service key entry is never touched by the reset. */
  lemma ResetKeepsApiKey(s: Store, week: string)
    ensures GetItem(WeeklyReset(s, week), ApiKeyEntry) == GetItem(s, ApiKeyEntry)
  {
  }

  /**
   A second start with the same week key changes nothing, even when entries
   other than the week key (a saved plan, say) were written in between.
   */
  lemma ResetIdempotent(s: Store, week: string, k: string, v: string)
    requires k != WeekKeyEntry
    ensures !WeekChanged(WeeklyReset(s, week), week)
    ensures WeeklyReset(SetItem(WeeklyReset(s, week), k, v), week) == SetItem(WeeklyReset(s, week), k, v)
  {
  }

  /** Starting again later in the same week changes nothing: a plan saved meanwhile survives. */
  lemma ResetIdempotentWithinWeek(s: Store, today: int, later: int)
    requires WeekIndex(later) == WeekIndex(today)
    ensures !WeekChanged(WeeklyReset(s, CurrentWeekKey(today)), CurrentWeekKey(later))
    ensures forall k, v :: k != WeekKeyEntry ==>
      var t := SetItem(WeeklyReset(s, CurrentWeekKey(today)), k, v);
      WeeklyReset(t, CurrentWeekKey(later)) == t
  {
    SameKeyIffSameWeek(today, later);
  }

  /**
   A store stamped in one week has its plan erased at the first start in any
   other week, and the week key moved on.
   */
  lemma ResetInNewWeekErasesPlan(s: Store, stamped: int, today: int)
    requires GetItem(s, WeekKeyEntry) == Some(CurrentWeekKey(stamped))
    requires WeekIndex(stamped) != WeekIndex(today)
    ensures WeekChanged(s, CurrentWeekKey(today))
    ensures GetItem(WeeklyReset(s, CurrentWeekKey(today)), PlanEntry) == None
    ensures GetItem(WeeklyReset(s, CurrentWeekKey(today)), ApiKeyEntry) == GetItem(s, ApiKeyEntry)
  {
    SameKeyIffSameWeek(stamped, today);
  }

  /** A store stamped in the current week keeps its plan. */
  lemma ResetInSameWeekKeepsPlan(s: Store, stamped: int, today: int)
    requires GetItem(s, WeekKeyEntry) == Some(CurrentWeekKey(stamped))
    requires WeekIndex(stamped) == WeekIndex(today)
    ensures WeeklyReset(s, CurrentWeekKey(today)) == s
  {
    SameKeyIffSameWeek(stamped, today);
  }
}
