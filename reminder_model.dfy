/** The Reminder schema: the shape of a stored reminder, the `frequency` enum,
    the defaults, and what the schema guarantees of every stored reminder. */
module ReminderModel {
  import opened JsValues
  import opened ObjectIds

  /** The values the `frequency` path's enum admits. */
  datatype Frequency = Once | Daily | Weekly | Monthly

  /** The stored spelling of a frequency. */
  function FrequencyName(f: Frequency): string
  {
    match f
    case Once => "once"
    case Daily => "daily"
    case Weekly => "weekly"
    case Monthly => "monthly"
  }

  /** The enum check: a string names a frequency only if it is one of the four spellings. */
  function ParseFrequency(s: string): (r: Option<Frequency>)
    ensures r.Some? ==> FrequencyName(r.value) == s
  {
    if s == "once" then Some(Once)
    else if s == "daily" then Some(Daily)
    else if s == "weekly" then Some(Weekly)
    else if s == "monthly" then Some(Monthly)
    else None
  }

  /** Every frequency survives being stored and read back. */
  lemma FrequencyRoundTrip(f: Frequency)
    ensures ParseFrequency(FrequencyName(f)) == Some(f)
  {
  }

  /** The `frequency` path: cast to String, then checked against the enum. */
  function CastFrequency(v: Value): (r: Option<Frequency>)
    ensures r.Some? ==> !v.Null? && ToJsString(v) == FrequencyName(r.value)
    ensures v.Str? ==> r == ParseFrequency(v.s)
  {
    if v.Null? then None else ParseFrequency(ToJsString(v))
  }

  const DefaultFrequency: Frequency := Once
  const DefaultCompleted: bool := false

  /** A stored reminder document. */
  datatype Reminder = Reminder(
    id: string,
    petId: string,
    title: string,
    dueAt: Date,
    frequency: Frequency,
    completed: bool,
    createdAt: Date,
    updatedAt: Date)

  /** What the schema enforces of every stored reminder: `petId` is an ObjectId
      (kept in its stored, lower-case form) and `title` is required and
      trimmed; `frequency` lies in the enum by its type. */
  predicate ValidReminder(r: Reminder)
  {
    IsCanonical(r.petId) && IsRequiredText(r.title)
  }

  /** `Reminder.create(...)`: casts and trims `title`, checks `frequency`
      against the enum, defaults `completed` to false and stamps both
      timestamps with `now`. */
  function NewReminder(id: string, petId: string, title: Value, dueAt: Date,
                       frequency: Value, now: Date): (r: Option<Reminder>)
    requires IsCanonical(petId)
    ensures r.Some? <==> CastRequiredText(title).Some? && CastFrequency(frequency).Some?
    ensures r.Some? ==> ValidReminder(r.value)
    ensures r.Some? ==> r.value.id == id && r.value.petId == petId && r.value.dueAt == dueAt
    ensures r.Some? ==> r.value.createdAt == now && r.value.updatedAt == now
    ensures r.Some? ==> !r.value.completed
    ensures r.Some? ==> ToJsString(frequency) == FrequencyName(r.value.frequency)
    ensures r.Some? ==> Some(r.value.title) == CastRequiredText(title)
    ensures r.Some? ==> Some(r.value.frequency) == CastFrequency(frequency)
    ensures r.Some? && title.Str? ==> r.value.title == Trim(title.s)
  {
    match (CastRequiredText(title), CastFrequency(frequency))
    case (Some(t), Some(f)) => Some(Reminder(id, petId, t, dueAt, f, DefaultCompleted, now, now))
    case _ => None
  }

  /** The `updates` object updateReminder hands to `findByIdAndUpdate`: one slot
      per allowed key, `None` where the body did not set it. There is no slot
      for `petId`. */
  datatype ReminderUpdates = ReminderUpdates(
    title: Option<Value>,
    dueAt: Option<Date>,
    frequency: Option<Value>,
    completed: Option<Value>)

  const NoReminderUpdates := ReminderUpdates(None, None, None, None)

  /** Whether the update validators accept `u`: `title` may not be emptied,
      `frequency` must be in the enum, `completed` must cast to a Boolean. */
  predicate ReminderUpdatesConform(u: ReminderUpdates)
  {
    && (u.title.Some? ==> CastRequiredText(u.title.value).Some?)
    && (u.frequency.Some? ==> CastFrequency(u.frequency.value).Some?)
    && (u.completed.Some? ==> CastBoolean(u.completed.value).Some?)
  }

  /** The stored reminder after `$set` of the conforming updates `u` at time `now`. */
  function ApplyReminderUpdates(r: Reminder, u: ReminderUpdates, now: Date): (q: Reminder)
    requires ReminderUpdatesConform(u)
    ensures ValidReminder(r) ==> ValidReminder(q)
    ensures q.id == r.id && q.petId == r.petId
    ensures q.createdAt == r.createdAt && q.updatedAt == now
    ensures u.title.None? ==> q.title == r.title
    ensures u.dueAt.None? ==> q.dueAt == r.dueAt
    ensures u.frequency.None? ==> q.frequency == r.frequency
    ensures u.completed.None? ==> q.completed == r.completed
    ensures u.title.Some? && u.title.value.Str? ==> q.title == Trim(u.title.value.s)
    ensures u.dueAt.Some? ==> q.dueAt == u.dueAt.value
    ensures u.completed.Some? && u.completed.value.Bool? ==> q.completed == u.completed.value.b
    ensures u.title.Some? ==> Some(q.title) == CastRequiredText(u.title.value)
    ensures u.frequency.Some? ==> Some(q.frequency) == CastFrequency(u.frequency.value)
    ensures u.frequency.Some? ==> ToJsString(u.frequency.value) == FrequencyName(q.frequency)
    ensures u.completed.Some? ==> Some(q.completed) == CastBoolean(u.completed.value)
  {
    r.(
      title := if u.title.Some? then CastRequiredText(u.title.value).value else r.title,
      dueAt := if u.dueAt.Some? then u.dueAt.value else r.dueAt,
      frequency := if u.frequency.Some? then CastFrequency(u.frequency.value).value else r.frequency,
      completed := if u.completed.Some? then CastBoolean(u.completed.value).value else r.completed,
      updatedAt := now)
  }
}
